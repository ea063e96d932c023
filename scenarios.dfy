/**
 * The repository's own test scenarios, replayed on the model; each method's
 * ensures clause states the outcome the test asserts.
 */
module Scenarios {
  import opened Wrappers
  import opened Domain
  import opened Sequences
  import opened Pagination
  import opened MessageStore
  import opened ConversationStore
  import opened UserStore
  import opened ConversationApp

  function Keep<T>(x: T, p: T -> bool): seq<T> {
    if p(x) then [x] else []
  }

  lemma FilterThree<T>(a: T, b: T, c: T, p: T -> bool)
    ensures Filter([a, b, c], p) == Keep(a, p) + Keep(b, p) + Keep(c, p)
  {
    assert [] + [a] == [a] && [a] + [b] == [a, b] && [a, b] + [c] == [a, b, c];
    FilterSnoc([], a, p);
    FilterSnoc([a], b, p);
    FilterSnoc([a, b], c, p);
  }

  /** Three messages: "user-1" sent two, "user-2" one, an unknown sender none. */
  method MessagesBySender() returns (counts: seq<nat>)
    ensures counts == [2, 1, 0]
  {
    var repo := new MessageRepository();
    var m1 := Message(1, "user-1", "user-2", "Hello, user-2!", 0, Sent);
    var m2 := Message(2, "user-1", "user-3", "Hello, user-3!", 0, Sent);
    var m3 := Message(3, "user-2", "user-1", "Hi, user-1!", 0, Sent);
    var e1 := repo.Create(m1, 0);
    var e2 := repo.Create(m2, 0);
    var e3 := repo.Create(m3, 0);
    assert repo.messages == [m1, m2, m3];
    var byOne := repo.GetMessagesBySender("user-1");
    var byTwo := repo.GetMessagesBySender("user-2");
    var byUnknown := repo.GetMessagesBySender("unknown");
    FilterThree(m1, m2, m3, SentBy("user-1"));
    FilterThree(m1, m2, m3, SentBy("user-2"));
    FilterThree(m1, m2, m3, SentBy("unknown"));
    counts := [|byOne|, |byTwo|, |byUnknown|];
  }

  /** Ten messages to one receiver: (limit 5, offset 0), (3, 7) and (5, 10) give 5, 3 and 0 messages. */
  method MessagesByReceiverPaged() returns (counts: seq<nat>)
    ensures counts == [5, 3, 0]
  {
    var repo := new MessageRepository();
    var receiverId := "receiver-1";
    for i := 0 to 10
      invariant |repo.messages| == i
      invariant forall k :: 0 <= k < i ==> repo.messages[k].receiverId == receiverId
    {
      var e := repo.Create(Message(i + 1, "sender", receiverId, "Message", 0, Sent), 0);
    }
    FilterKeepsAll(repo.messages, ReceivedBy(receiverId));
    PageSizesForTen(repo.messages);
    var a := repo.GetMessagesByReceiver(receiverId, 5, 0);
    var b := repo.GetMessagesByReceiver(receiverId, 3, 7);
    var c := repo.GetMessagesByReceiver(receiverId, 5, 10);
    counts := [|a|, |b|, |c|];
  }

  /** Three conversations: "bob" is in the first two, "alice" only in the first, "unknown" in none. */
  method ConversationsByParticipant() returns (bob: seq<Conversation>, alice: seq<Conversation>, unknown: seq<Conversation>)
    ensures |bob| == 2 && bob[0].participantIds == ["alice", "bob"] && bob[1].participantIds == ["bob", "carol"]
    ensures |alice| == 1 && alice[0].participantIds == ["alice", "bob"]
    ensures unknown == []
  {
    var repo := new ConversationRepository();
    var c1 := Conversation(1, ["alice", "bob"], 0);
    var c2 := Conversation(2, ["bob", "carol"], 0);
    var c3 := Conversation(3, ["dave", "eve"], 0);
    var e1 := repo.Create(c1);
    var e2 := repo.Create(c2);
    var e3 := repo.Create(c3);
    assert repo.conversations == [c1, c2, c3];
    FilterThree(c1, c2, c3, HasParticipant("bob"));
    FilterThree(c1, c2, c3, HasParticipant("alice"));
    FilterThree(c1, c2, c3, HasParticipant("unknown"));
    assert c1.participantIds[1] == "bob" && c2.participantIds[0] == "bob" && c1.participantIds[0] == "alice";
    assert Keep(c1, HasParticipant("bob")) == [c1] && Keep(c2, HasParticipant("bob")) == [c2];
    assert Keep(c3, HasParticipant("bob")) == [];
    assert Keep(c1, HasParticipant("alice")) == [c1];
    assert Keep(c2, HasParticipant("alice")) == [] && Keep(c3, HasParticipant("alice")) == [];
    assert Keep(c1, HasParticipant("unknown")) == [] && Keep(c2, HasParticipant("unknown")) == [];
    assert Keep(c3, HasParticipant("unknown")) == [];
    bob := repo.FindByParticipant("bob");
    alice := repo.FindByParticipant("alice");
    unknown := repo.FindByParticipant("unknown");
  }

  /** A user is created once, refused the second time, found by name; an unknown name is not found. */
  method UsersCreateAndFind() returns (first: Option<Error>, second: Option<Error>,
                                       found: Result<User, Error>, missing: Result<User, Error>)
    ensures first == None && second == Some(UserAlreadyExists)
    ensures found == Success(User(1, "testuser", "hashedpassword"))
    ensures missing == Failure(UserNotFound)
  {
    var repo := new UserRepository();
    var user := User(1, "testuser", "hashedpassword");
    first := repo.Create(user);
    second := repo.Create(user);
    found := repo.FindByUsername("testuser");
    missing := repo.FindByUsername("unknown");
  }

  /**
   * One participant is too few; a conversation of "alice" and "bob" is listed
   * for each of them and for nobody else.
   */
  method ConversationServiceCreateAndList()
    returns (tooFew: Result<Conversation, Error>, created: Result<Conversation, Error>,
             forAlice: seq<Conversation>, forBob: seq<Conversation>, forCharlie: seq<Conversation>)
    ensures tooFew == Failure(TooFewParticipants)
    ensures created.Success? && created.value.participantIds == ["alice", "bob"]
    ensures forAlice == [created.value] && forBob == [created.value] && forCharlie == []
  {
    var repo := new ConversationRepository();
    var svc := new ConversationService(repo);
    tooFew := svc.CreateConversation(["only-one"], 1, 0);
    created := svc.CreateConversation(["alice", "bob"], 2, 0);
    assert repo.conversations == [created.value];
    forAlice := svc.GetConversationsForUser("alice");
    forBob := svc.GetConversationsForUser("bob");
    forCharlie := svc.GetConversationsForUser("charlie");
  }
}
