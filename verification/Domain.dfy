/** Identifiers, results, conversations and message contents shared by the server model. */
module Domain {

  type UserId = nat
  type ConversationId = nat
  type MessageId = nat
  type AttachmentId = nat
  type RequestId = nat

  /** Seconds on the server's clock. */
  type Time = int

  datatype Option<+T> = None | Some(value: T) {
    function GetOr(default: T): T {
      if Some? then value else default
    }
  }

  datatype Error = NotFound | Forbidden | Conflict | Invalid | Unauthorized | InvalidCredentials | SessionExpired
                 | RefreshTokenReuse | SecondFactorRejected | AccountConflict | Storage

  datatype Result<+T> = Ok(value: T) | Err(error: Error) {
    predicate IsFailure() {
      Err?
    }

    function PropagateFailure<U>(): Result<U>
      requires Err?
    {
      Err(error)
    }

    function Extract(): T
      requires Ok?
    {
      value
    }
  }

  function Need(condition: bool, error: Error): Result<()> {
    if condition then Ok(()) else Err(error)
  }

  // ----- conversations -----

  datatype Role = Member | Administrator | Owner {
    /** The derived order: Member < Administrator < Owner. */
    function Rank(): nat {
      match this
      case Member => 0
      case Administrator => 1
      case Owner => 2
    }
  }

  datatype Participant = Participant(role: Role, mutedUntil: Option<Time>, joinedAt: Time)

  datatype ConversationKind = Direct | Group

  datatype Conversation = Conversation(kind: ConversationKind, members: map<UserId, Participant>, updatedAt: Time) {
    predicate CanRead(user: UserId) {
      user in members
    }

    predicate CanSend(user: UserId, now: Time) {
      user in members && (members[user].mutedUntil.Some? ==> members[user].mutedUntil.value <= now)
    }

    predicate HasRole(user: UserId, role: Role) {
      user in members && members[user].role == role
    }

    predicate HasRoleAtLeast(user: UserId, role: Role) {
      user in members && members[user].role.Rank() >= role.Rank()
    }
  }

  // ----- messages -----

  /** The object-store key `uploads/{owner}/{id}`, by its two parts. */
  datatype StorageKey = Upload(owner: UserId, id: AttachmentId)

  datatype Attachment = Attachment(id: AttachmentId, byteSize: nat, storageKey: StorageKey, metadata: string)

  datatype MediaKind = Image | File | Audio(durationMs: nat) | Sticker(name: string)

  /** The fixed texts of system messages. */
  datatype Notice = GroupUpdated | MembersInvited(count: nat) | MemberLeft | MemberRemoved | MemberSettingsUpdated
                  | OwnershipTransferred | MuteAllChanged(muted: bool) | MemberJoined | MessageRecalled

  datatype Forwarded = Forwarded(sender: UserId, senderName: string, content: Content, createdAt: Time)

  datatype Content =
    | Text(text: string)
    | Media(media: MediaKind, attachment: Attachment)
    | Bundle(messages: seq<Forwarded>)
    | System(notice: Notice)

  datatype Status = Pending | Sent | Delivered | Read | Failed | Recalled

  datatype Message = Message(
    id: MessageId,
    clientId: MessageId,
    conversation: ConversationId,
    sender: UserId,
    sequence: Option<nat>,
    content: Content,
    status: Status,
    mentions: set<UserId>,
    mentionAll: bool,
    createdAt: Time,
    serverCreatedAt: Option<Time>)

  const MAX_MESSAGE_CHARS := 10000

  predicate IsBlank(text: string) {
    forall c :: c in text ==> c in " \t\r\n"
  }

  predicate NameFits(name: string, limit: nat) {
    !IsBlank(name) && |name| <= limit
  }

  /** A system message's text is one of the fixed notices, which are never blank. */
  predicate ContentIsValid(content: Content) {
    match content
    case Text(text) => NameFits(text, MAX_MESSAGE_CHARS)
    case Media(media, attachment) =>
      attachment.byteSize != 0 && (media.Sticker? ==> NameFits(media.name, 48))
    case Bundle(messages) =>
      && 2 <= |messages| <= 100
      && forall m :: m in messages ==>
                       NameFits(m.senderName, 80) && !m.content.System? && !m.content.Bundle?
    case System(_) => true
  }

  function PendingMessage(id: MessageId, clientId: MessageId, conversation: ConversationId, sender: UserId,
                          content: Content, now: Time): Result<Message>
  {
    if ContentIsValid(content)
    then Ok(Message(id, clientId, conversation, sender, None, content, Pending, {}, false, now, None))
    else Err(Invalid)
  }

  function MarkSent(message: Message, sequence: nat, serverTime: Time): Result<Message> {
    if message.status in {Pending, Failed}
    then Ok(message.(sequence := Some(sequence), serverCreatedAt := Some(serverTime), status := Sent))
    else Err(Invalid)
  }

  /** What an operation on an object leaves of it agrees with what is specified: on success the reply and the new state, on
      an error the error alone, since the caller puts the old state back. */
  ghost predicate Agrees<S, R>(r: Result<R>, after: S, spec: Result<(S, R)>) {
    match spec
    case Ok((t, reply)) => r == Ok(reply) && after == t
    case Err(e) => r == Err(e)
  }

  lemma Regroup<T>(a: seq<T>, b: seq<T>, c: seq<T>)
    ensures a + b + c == a + (b + c)
  {
  }

  /** There is always a number above finitely many. */
  lemma {:induction false} SomethingNew(used: set<nat>) returns (n: nat)
    ensures forall m :: m in used ==> m < n
  {
    n := 0;
    var rest := used;
    while rest != {}
      invariant rest <= used && forall m :: m in used && m !in rest ==> m < n
    {
      var m :| m in rest;
      n := if m < n then n else m + 1;
      rest := rest - {m};
    }
  }
}
