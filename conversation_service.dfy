/** The conversation use cases (application/conversation_service.go). */
module ConversationApp {
  import opened Wrappers
  import opened Domain
  import opened Sequences
  import opened ConversationStore

  /** What `CreateConversation` returns for these participants, given the fresh ID and the time. */
  function CreateConversationResult(participantIds: seq<string>, freshId: Uuid, now: Time): Result<Conversation, Error> {
    if |participantIds| < 2 then Failure(TooFewParticipants)
    else Success(Conversation(freshId, participantIds, now))
  }

  class ConversationService {
    const repo: ConversationRepository

    constructor (repo: ConversationRepository)
      ensures this.repo == repo
    {
      this.repo := repo;
    }

    /**
     * Refuses fewer than two participant IDs without touching the store;
     * otherwise stores and returns a conversation with exactly these IDs.
     */
    method CreateConversation(participantIds: seq<string>, freshId: Uuid, now: Time)
      returns (r: Result<Conversation, Error>)
      requires freshId != NilUuid
      modifies repo
      ensures r == CreateConversationResult(participantIds, freshId, now)
      ensures r.Failure? ==> repo.conversations == old(repo.conversations)
      ensures r.Success? ==> repo.conversations == old(repo.conversations) + [r.value]
    {
      if |participantIds| < 2 {
        return Failure(TooFewParticipants);
      }
      var conv := Conversation(freshId, participantIds, now);
      var err := repo.Create(conv);
      match err {
        case Some(e) => r := Failure(e);
        case None => r := Success(conv);
      }
    }

    /** The conversations `userId` takes part in, straight from the store. */
    method GetConversationsForUser(userId: string) returns (cs: seq<Conversation>)
      ensures cs == Filter(repo.conversations, HasParticipant(userId))
    {
      cs := repo.FindByParticipant(userId);
    }
  }

  /** A conversation just created is listed for each of its participants and for nobody else. */
  lemma {:induction false} NewConversationVisibleToParticipants(
    before: seq<Conversation>, conv: Conversation, userId: string)
    ensures Filter(before + [conv], HasParticipant(userId)) ==
            Filter(before, HasParticipant(userId)) + (if userId in conv.participantIds then [conv] else [])
  {
    FilterSnoc(before, conv, HasParticipant(userId));
  }
}
