/** The in-memory conversation store (adapters/memory/conversation_repository.go). */
module ConversationStore {
  import opened Wrappers
  import opened Domain
  import opened Sequences

  /** Selects the conversations that list `userId` among their participants. */
  function HasParticipant(userId: string): Conversation -> bool {
    (c: Conversation) => userId in c.participantIds
  }

  /**
   * A conversation that names `userId`, however many times, is listed as
   * often as it is stored, and one that does not name it is never listed.
   */
  lemma ParticipantListedOnce(cs: seq<Conversation>, userId: string, c: Conversation)
    ensures userId in c.participantIds ==>
              multiset(Filter(cs, HasParticipant(userId)))[c] == multiset(cs)[c]
    ensures userId !in c.participantIds ==> c !in Filter(cs, HasParticipant(userId))
  {
    FilterCount(cs, HasParticipant(userId), c);
  }

  class ConversationRepository {
    /** The stored conversations, oldest first. */
    var conversations: seq<Conversation>

    constructor ()
      ensures conversations == []
    {
      conversations := [];
    }

    /** Stores `conv` at the end. */
    method Create(conv: Conversation) returns (err: Option<Error>)
      modifies this
      ensures conversations == old(conversations) + [conv]
      ensures err == None
    {
      conversations := conversations + [conv];
      err := None;
    }

    /**
     * The conversations `userId` takes part in, oldest first; the inner
     * search stops at the first matching participant, so a conversation is
     * listed once however often it names `userId`.
     */
    method FindByParticipant(userId: string) returns (result: seq<Conversation>)
      ensures result == Filter(conversations, HasParticipant(userId))
    {
      result := [];
      for i := 0 to |conversations|
        invariant result == Filter(conversations[..i], HasParticipant(userId))
      {
        var c := conversations[i];
        ghost var before := result;
        var j := 0;
        while j < |c.participantIds|
          invariant 0 <= j <= |c.participantIds|
          invariant userId !in c.participantIds[..j]
          invariant result == before
        {
          if c.participantIds[j] == userId {
            result := result + [c];
            break;
          }
          assert c.participantIds[..j + 1] == c.participantIds[..j] + [c.participantIds[j]];
          j := j + 1;
        }
        assert c.participantIds[..|c.participantIds|] == c.participantIds;
        assert result == before + (if HasParticipant(userId)(c) then [c] else []);
        FilterSnoc(conversations[..i], c, HasParticipant(userId));
        assert conversations[..i + 1] == conversations[..i] + [c];
      }
      assert conversations[..|conversations|] == conversations;
    }
  }
}
