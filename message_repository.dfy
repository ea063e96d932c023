/** The in-memory message store (adapters/memory/message_repository.go). */
module MessageStore {
  import opened Wrappers
  import opened Domain
  import opened Sequences
  import opened Pagination

  /** Selects the messages sent by `senderId`. */
  function SentBy(senderId: string): Message -> bool {
    (m: Message) => m.senderId == senderId
  }

  /** Selects the messages addressed to `receiverId`. */
  function ReceivedBy(receiverId: string): Message -> bool {
    (m: Message) => m.receiverId == receiverId
  }

  /** The position of the first message with this ID, or `|ms|` when there is none. */
  function IndexOfId(ms: seq<Message>, id: Uuid): (k: nat)
    ensures k <= |ms|
    ensures k < |ms| ==> ms[k].id == id
    ensures forall j :: 0 <= j < k ==> ms[j].id != id
    decreases |ms|
  {
    if ms == [] then 0
    else if ms[0].id == id then 0
    else
      var k := 1 + IndexOfId(ms[1..], id);
      assert forall j :: 1 <= j < k ==> ms[j] == ms[1..][j - 1];
      k
  }

  /**
   * What setting the status of message `id` does to the list `before`: the
   * first message with that ID gets the new status and nothing else changes;
   * without such a message the list stays as it is and the result is
   * "message not found".
   */
  predicate StatusSet(before: seq<Message>, after: seq<Message>, id: Uuid, status: Status, err: Option<Error>) {
    var k := IndexOfId(before, id);
    if k < |before| then err == None && after == before[k := before[k].(status := status)]
    else err == Some(MessageNotFound) && after == before
  }

  /** A status update touches one message, and only its status. */
  lemma StatusSetTouchesOne(before: seq<Message>, after: seq<Message>, id: Uuid, status: Status, err: Option<Error>)
    requires StatusSet(before, after, id, status, err)
    ensures |after| == |before|
    ensures err == None <==> exists j :: 0 <= j < |before| && before[j].id == id
    ensures forall j :: 0 <= j < |before| && j != IndexOfId(before, id) ==> after[j] == before[j]
    ensures forall j :: 0 <= j < |before| ==>
              after[j].(status := before[j].status) == before[j]
    ensures err == None ==> after[IndexOfId(before, id)].status == status
  {
  }

  class MessageRepository {
    /** The stored messages, oldest first. */
    var messages: seq<Message>

    constructor ()
      ensures messages == []
    {
      messages := [];
    }

    /** Stores `message` at the end, stamped with the current time and the status Sent. */
    method Create(message: Message, now: Time) returns (err: Option<Error>)
      modifies this
      ensures messages == old(messages) + [message.(createdAt := now, status := Sent)]
      ensures err == None
    {
      var stored := message.(createdAt := now, status := Sent);
      messages := messages + [stored];
      err := None;
    }

    /** The messages sent by `senderId`, oldest first. */
    method GetMessagesBySender(senderId: string) returns (result: seq<Message>)
      ensures result == Filter(messages, SentBy(senderId))
    {
      result := [];
      for i := 0 to |messages|
        invariant result == Filter(messages[..i], SentBy(senderId))
      {
        FilterSnoc(messages[..i], messages[i], SentBy(senderId));
        assert messages[..i + 1] == messages[..i] + [messages[i]];
        if messages[i].senderId == senderId {
          result := result + [messages[i]];
        }
      }
      assert messages[..|messages|] == messages;
    }

    /**
     * The page at (`limit`, `offset`) of the messages addressed to
     * `receiverId`, oldest first.  A negative `limit` or `offset` makes the
     * Go slice expression panic; the parameter types exclude them.
     */
    method GetMessagesByReceiver(receiverId: string, limit: nat, offset: nat) returns (result: seq<Message>)
      ensures result == Page(Filter(messages, ReceivedBy(receiverId)), limit, offset)
    {
      var matching := [];
      for i := 0 to |messages|
        invariant matching == Filter(messages[..i], ReceivedBy(receiverId))
      {
        FilterSnoc(messages[..i], messages[i], ReceivedBy(receiverId));
        assert messages[..i + 1] == messages[..i] + [messages[i]];
        if messages[i].receiverId == receiverId {
          matching := matching + [messages[i]];
        }
      }
      assert messages[..|messages|] == messages;
      var start := offset;
      if start > |matching| {
        start := |matching|;
      }
      var end := |matching|;
      if limit <= |matching| - start {
        end := start + limit;
      }
      result := matching[start..end];
    }

    /** Sets the status of the first message with this ID. */
    method SetMessageStatus(id: Uuid, status: Status) returns (err: Option<Error>)
      modifies this
      ensures StatusSet(old(messages), messages, id, status, err)
    {
      var i := 0;
      while i < |messages|
        invariant 0 <= i <= |messages|
        invariant messages == old(messages)
        invariant forall j :: 0 <= j < i ==> messages[j].id != id
      {
        if messages[i].id == id {
          messages := messages[i := messages[i].(status := status)];
          return None;
        }
        i := i + 1;
      }
      return Some(MessageNotFound);
    }
  }
}
