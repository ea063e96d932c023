/** The message use cases (application/message_service.go). */
module MessageApp {
  import opened Wrappers
  import opened Domain
  import opened Sequences
  import opened Pagination
  import opened MessageStore

  /** The error `CreateMessage` returns for this content: only empty content is refused. */
  function CreateMessageError(content: string): Option<Error> {
    if content == "" then Some(MessageContentRequired) else None
  }

  class MessageService {
    const repo: MessageRepository
    /** `uuid.Parse`, a foreign partial function. */
    const parseUuid: string -> Result<Uuid, Error>

    constructor (repo: MessageRepository, parseUuid: string -> Result<Uuid, Error>)
      ensures this.repo == repo && this.parseUuid == parseUuid
    {
      this.repo := repo;
      this.parseUuid := parseUuid;
    }

    /**
     * Refuses empty content without touching the store; otherwise stores one
     * message from `senderId` to `receiverId` under the fresh ID `freshId`
     * (what `uuid.New` returned), stamped `now`.
     */
    method CreateMessage(senderId: string, receiverId: string, content: string, freshId: Uuid, now: Time)
      returns (err: Option<Error>)
      requires freshId != NilUuid
      modifies repo
      ensures err == CreateMessageError(content)
      ensures content == "" ==> repo.messages == old(repo.messages)
      ensures content != "" ==>
                repo.messages == old(repo.messages) + [Message(freshId, senderId, receiverId, content, now, Sent)]
    {
      if content == "" {
        return Some(MessageContentRequired);
      }
      // The status given here is overwritten by the store, which stamps every new message Sent.
      var message := Message(freshId, senderId, receiverId, content, now, Sent);
      err := repo.Create(message, now);
    }

    /** Every message `senderId` sent, oldest first, straight from the store. */
    method GetMessages(senderId: string) returns (ms: seq<Message>)
      ensures ms == Filter(repo.messages, SentBy(senderId))
    {
      ms := repo.GetMessagesBySender(senderId);
    }

    /** The store's page of messages for `receiverId`, with `limit` and `offset` passed on unchanged. */
    method GetMessagesByReceiver(receiverId: string, limit: nat, offset: nat) returns (ms: seq<Message>)
      ensures ms == Page(Filter(repo.messages, ReceivedBy(receiverId)), limit, offset)
    {
      ms := repo.GetMessagesByReceiver(receiverId, limit, offset);
    }

    /**
     * An unparsable ID is refused with a wrapped parse error and the store is
     * not called; a parsable one is handed to the store with `status`, whose
     * error comes back as it is.
     */
    method SetMessageStatus(messageId: string, status: Status) returns (err: Option<Error>)
      modifies repo
      ensures parseUuid(messageId).Failure? ==>
                err == Some(Wrapped("invalid message ID", parseUuid(messageId).error)) &&
                repo.messages == old(repo.messages)
      ensures parseUuid(messageId).Success? ==>
                StatusSet(old(repo.messages), repo.messages, parseUuid(messageId).value, status, err)
    {
      var parsed := parseUuid(messageId);
      if parsed.Failure? {
        return Some(Wrapped("invalid message ID", parsed.error));
      }
      err := repo.SetMessageStatus(parsed.value, status);
    }
  }
}
