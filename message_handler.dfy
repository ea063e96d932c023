/** The message endpoints (adapters/http/message_handler.go). */
module MessageHttp {
  import opened Wrappers
  import opened Domain
  import opened GoInt
  import opened Strconv
  import opened Http
  import MessageApp

  /** The body of `POST /messages`. */
  datatype CreateMessageRequest = CreateMessageRequest(receiverId: string, content: string)

  /** The service calls the message handlers can make. */
  datatype MessageCall =
    | CreateMessageCall(senderId: string, receiverId: string, content: string)
    | GetMessagesByReceiverCall(receiverId: string, limit: int, offset: int)
    | SetMessageStatusCall(id: string, status: Status)

  /**
   * One element of the `GET /messages` response.  The ID, the creation time
   * and the status are carried as values; their text encodings are not modelled.
   */
  datatype MessageResponse = MessageResponse(
    id: Uuid, senderId: string, receiverId: string, content: string, createdAt: Time, status: Status)

  function ToResponse(m: Message): MessageResponse {
    MessageResponse(m.id, m.senderId, m.receiverId, m.content, m.createdAt, m.status)
  }

  const DefaultLimit: int := 10
  const DefaultOffset: int := 0

  /** A `limit` query value is accepted when absent (empty) or an integer above zero. */
  predicate LimitAccepted(param: string) {
    param == "" || (Atoi(param).Some? && Atoi(param).value > 0)
  }

  /** An `offset` query value is accepted when absent (empty) or a non-negative integer. */
  predicate OffsetAccepted(param: string) {
    param == "" || (Atoi(param).Some? && Atoi(param).value >= 0)
  }

  /** The limit an accepted query value stands for. */
  function LimitValue(param: string): (limit: int)
    requires LimitAccepted(param)
    ensures 0 < limit <= MaxInt
    ensures param == "" ==> limit == DefaultLimit
    ensures param != "" ==> Atoi(param) == Some(limit)
  {
    if param == "" then DefaultLimit else Atoi(param).value
  }

  /** The offset an accepted query value stands for. */
  function OffsetValue(param: string): (offset: int)
    requires OffsetAccepted(param)
    ensures 0 <= offset <= MaxInt
    ensures param == "" ==> offset == DefaultOffset
    ensures param != "" ==> Atoi(param) == Some(offset)
  {
    if param == "" then DefaultOffset else Atoi(param).value
  }

  /** `POST /messages`: the sender comes from the context, receiver and content from the body. */
  function CreateMessage(ctxUserId: Option<string>, body: Decoded<CreateMessageRequest>, outcome: Option<Error>)
    : (r: Reply<MessageCall, seq<MessageResponse>>)
    ensures r.body == None
    ensures Authenticated(ctxUserId) && body.Malformed? ==> r == Reply(StatusBadRequest, None, None)
    ensures r.status == StatusUnauthorized <==> !Authenticated(ctxUserId)
    ensures r.call.Some? <==> Authenticated(ctxUserId) && body.Decoded?
    ensures r.status == StatusCreated <==> r.call.Some? && outcome.None?
    ensures r.status != StatusCreated ==> r.status == StatusBadRequest || r.status == StatusUnauthorized
  {
    if !Authenticated(ctxUserId) then Reply(StatusUnauthorized, None, None)
    else if body.Malformed? then Reply(StatusBadRequest, None, None)
    else
      var call := CreateMessageCall(ctxUserId.value, body.value.receiverId, body.value.content);
      if outcome.Some? then Reply(StatusBadRequest, Some(call), None)
      else Reply(StatusCreated, Some(call), None)
  }

  /** `PUT /messages/{id}/status`: `id` is the path variable, the status comes from the body. */
  function UpdateStatus(id: string, body: Decoded<Status>, outcome: Option<Error>)
    : (r: Reply<MessageCall, seq<MessageResponse>>)
    ensures r.body == None
    ensures r.call.Some? <==> body.Decoded?
    ensures r.status == StatusNoContent <==> r.call.Some? && outcome.None?
    ensures r.status != StatusNoContent ==> r.status == StatusBadRequest
  {
    if body.Malformed? then Reply(StatusBadRequest, None, None)
    else
      var call := SetMessageStatusCall(id, body.value);
      if outcome.Some? then Reply(StatusBadRequest, Some(call), None)
      else Reply(StatusNoContent, Some(call), None)
  }

  /**
   * `GET /messages?limit=..&offset=..`: `limitParam` and `offsetParam` are the
   * query values (empty when absent), `outcome` what the service returns if
   * it is called.
   */
  method GetMessages(ctxUserId: Option<string>, limitParam: string, offsetParam: string,
                     outcome: Result<seq<Message>, Error>)
    returns (reply: Reply<MessageCall, seq<MessageResponse>>)
    ensures !Authenticated(ctxUserId) ==> reply == Reply(StatusUnauthorized, None, None)
    ensures Authenticated(ctxUserId) && !(LimitAccepted(limitParam) && OffsetAccepted(offsetParam)) ==>
              reply == Reply(StatusBadRequest, None, None)
    ensures Authenticated(ctxUserId) && LimitAccepted(limitParam) && OffsetAccepted(offsetParam) ==>
              && reply.call == Some(GetMessagesByReceiverCall(ctxUserId.value, LimitValue(limitParam), OffsetValue(offsetParam)))
              && (outcome.Failure? ==> reply.status == StatusInternalServerError && reply.body == None)
              && (outcome.Success? ==> reply.status == StatusOK && reply.body.Some?)
    ensures reply.call.Some? ==>
              && reply.call.value.GetMessagesByReceiverCall?
              && reply.call.value.limit > 0 && reply.call.value.offset >= 0
    ensures reply.body.Some? ==>
              && outcome.Success?
              && |reply.body.value| == |outcome.value|
              && forall k :: 0 <= k < |outcome.value| ==> reply.body.value[k] == ToResponse(outcome.value[k])
  {
    if !(ctxUserId.Some? && ctxUserId.value != "") {
      return Reply(StatusUnauthorized, None, None);
    }
    var userId := ctxUserId.value;

    var limit := DefaultLimit;
    var offset := DefaultOffset;

    if limitParam != "" {
      var n := Atoi(limitParam);
      if n.None? || n.value <= 0 {
        return Reply(StatusBadRequest, None, None);
      }
      limit := n.value;
    }

    if offsetParam != "" {
      var n := Atoi(offsetParam);
      if n.None? || n.value < 0 {
        return Reply(StatusBadRequest, None, None);
      }
      offset := n.value;
    }

    var call := GetMessagesByReceiverCall(userId, limit, offset);
    if outcome.Failure? {
      return Reply(StatusInternalServerError, Some(call), None);
    }

    var msgs := outcome.value;
    var resp: seq<MessageResponse> := [];
    for i := 0 to |msgs|
      invariant |resp| == i
      invariant forall k :: 0 <= k < i ==> resp[k] == ToResponse(msgs[k])
    {
      resp := resp + [ToResponse(msgs[i])];
    }
    return Reply(StatusOK, Some(call), Some(resp));
  }

  /**
   * Without an identity in the context `POST /messages` answers 401, whatever
   * the body and without calling the service.
   */
  lemma CreateMessageRequiresIdentity(ctxUserId: Option<string>, b1: Decoded<CreateMessageRequest>,
                                      b2: Decoded<CreateMessageRequest>, o1: Option<Error>, o2: Option<Error>)
    requires !Authenticated(ctxUserId)
    ensures CreateMessage(ctxUserId, b1, o1) == CreateMessage(ctxUserId, b2, o2)
    ensures CreateMessage(ctxUserId, b1, o1) == Reply(StatusUnauthorized, None, None)
  {
  }

  /**
   * An authenticated, decodable `POST /messages` calls the service with the
   * context's sender and the body's receiver and content: 201 when the
   * service succeeds, 400 when it fails.
   */
  lemma CreateMessageMapsOutcome(sender: string, req: CreateMessageRequest, outcome: Option<Error>)
    requires sender != ""
    ensures var r := CreateMessage(Some(sender), Decoded(req), outcome);
            && r.call == Some(CreateMessageCall(sender, req.receiverId, req.content))
            && (r.status == StatusCreated <==> outcome.None?)
            && (r.status == StatusBadRequest <==> outcome.Some?)
  {
  }

  /** With the service's own rule, empty content ends in 400 and any other content in 201. */
  lemma CreateMessageThroughService(sender: string, req: CreateMessageRequest)
    requires sender != ""
    ensures CreateMessage(Some(sender), Decoded(req), MessageApp.CreateMessageError(req.content)).status ==
            if req.content == "" then StatusBadRequest else StatusCreated
  {
  }

  /**
   * `PUT /messages/{id}/status` answers 400 for an undecodable body without
   * calling the service; otherwise it passes the path ID and the status on, and
   * answers 204 on success and 400 on a service error.  It checks no identity.
   */
  lemma UpdateStatusMapsOutcome(id: string, body: Decoded<Status>, outcome: Option<Error>, other: Option<Error>)
    ensures body.Malformed? ==>
              UpdateStatus(id, body, outcome) == UpdateStatus(id, body, other) == Reply(StatusBadRequest, None, None)
    ensures body.Decoded? ==>
              && UpdateStatus(id, body, outcome).call == Some(SetMessageStatusCall(id, body.value))
              && UpdateStatus(id, body, outcome).status == (if outcome.None? then StatusNoContent else StatusBadRequest)
  {
  }

  /** With no query parameters the page is the first ten messages. */
  lemma DefaultPagination()
    ensures LimitAccepted("") && OffsetAccepted("")
    ensures LimitValue("") == 10 && OffsetValue("") == 0
  {
  }

  /** `limit=abc` and `limit=0` are refused, `offset=-1` is refused, `offset=0` is accepted. */
  lemma PaginationParamExamples()
    ensures !LimitAccepted("abc") && !LimitAccepted("0") && !LimitAccepted("-3")
    ensures !OffsetAccepted("-1") && !OffsetAccepted("x1")
    ensures OffsetAccepted("0") && OffsetValue("0") == 0
    ensures LimitAccepted("2") && LimitValue("2") == 2
  {
    AtoiExamples();
    assert Atoi("0") == Some(0) by { assert DigitsValue("0") == 0; }
    assert Atoi("-3") == Some(-3) by { assert DigitsValue("3") == 3; }
    assert Atoi("x1") == None by { assert !IsDigit("x1"[0]); }
  }

  /**
   * The largest 64-bit integer is an accepted limit: the handler hands
   * `MaxInt` to the service, which is where the store's clamp as written
   * would overflow.
   */
  lemma MaxIntLimitAccepted()
    ensures LimitAccepted(Itoa(MaxInt)) && LimitValue(Itoa(MaxInt)) == MaxInt
  {
    AtoiItoa(MaxInt);
    assert Itoa(MaxInt) != "" by { assert NatDigits(MaxInt) != []; }
  }
}
