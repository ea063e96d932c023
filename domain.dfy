/** The entities of the chat backend (domain/message.go, domain/conversation.go, the user record). */
module Domain {

  /** A 16-byte UUID, read as an unsigned 128-bit number. */
  const UuidLimit: int := 0x1_0000_0000_0000_0000_0000_0000_0000_0000
  type Uuid = x: int | 0 <= x < UuidLimit

  /** `uuid.Nil`, the all-zero UUID. */
  const NilUuid: Uuid := 0

  /** A timestamp taken from the clock; its value is never inspected. */
  type Time = nat

  /** Delivery state of a message. */
  datatype Status = Sent | Delivered | Read

  /** A direct message, with the creation time and status the in-memory store maintains. */
  datatype Message = Message(
    id: Uuid,
    senderId: string,
    receiverId: string,
    content: string,
    createdAt: Time,
    status: Status)

  /** A conversation between participants, identified by user ID strings. */
  datatype Conversation = Conversation(id: Uuid, participantIds: seq<string>, createdAt: Time)

  /** A registered user; the password is kept only as its bcrypt hash. */
  datatype User = User(id: Uuid, username: string, passwordHash: string)

  /**
   * The errors the core can return.  Go compares errors by identity: each
   * sentinel below is one `errors.New` value; `Wrapped` is an error built with
   * `fmt.Errorf("...: %w", inner)`, which is never `==` to its inner error.
   */
  datatype Error =
    | MessageContentRequired   // application.ErrMessageContentRequired
    | TooFewParticipants       // application.ErrTooFewParticipants
    | UsernameTaken            // application.ErrUsernameTaken
    | UsernameRequired         // application.ErrUsernameRequired
    | PasswordRequired         // application.ErrPasswordRequired
    | InvalidCredentials       // application.ErrInvalidCredentials
    | MessageNotFound          // "message not found" from the in-memory message store
    | UserAlreadyExists        // "user already exists" from the in-memory user store
    | UserNotFound             // "user not found" from the in-memory user store
    | Foreign(text: string)    // an error produced by code outside the model (bcrypt, uuid, JWT)
    | Wrapped(text: string, inner: Error)
}
