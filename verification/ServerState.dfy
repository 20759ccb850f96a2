/** The server store as a value, and what each service operation makes of it.
    Every operation is a function from a state to a new state and a reply, or to an error. */
module ServerState {
  import opened Domain
  import opened Membership

  datatype Account = Account(nickname: string, deleted: bool)

  datatype Settings = Settings(lastRead: nat, manuallyUnread: bool)

  datatype Receipt = Receipt(deliveredTo: set<UserId>, readBy: set<UserId>)

  datatype JoinStatus = Waiting | Accepted | Rejected

  datatype JoinRequest = JoinRequest(conversation: ConversationId, applicant: UserId, status: JoinStatus)

  datatype SendRequest = SendRequest(
    clientId: MessageId, content: Content, mentions: set<UserId>, mentionAll: bool, expiresIn: Option<nat>)

  datatype Scheduled = Scheduled(
    id: RequestId, actor: UserId, conversation: ConversationId, request: SendRequest, dueAt: Time)

  datatype StoredAttachment = StoredAttachment(
    attachment: Attachment, owner: UserId, expiresAt: Time, available: bool, quarantined: bool)

  /** The identifiers the server generates for one message it creates itself. */
  datatype Minted = Minted(id: MessageId, clientId: MessageId)

  datatype EventBody =
    | MessageCreated(message: Message)
    | MessageRecalledEvent(message: Message)
    | MessageDelivered(id: MessageId, to: UserId)
    | ReadThrough(user: UserId, conversation: ConversationId, sequence: nat)
    | AllRead
    | SettingsChanged(conversation: ConversationId)
    | ConversationUpdated(conversation: ConversationId)
    | Disbanded(conversation: ConversationId)
    | MembershipUpdated(conversation: ConversationId)
    | JoinRequestUpdated(request: RequestId)
    | RelationsChanged
    | AccountDeleted(user: UserId)

  datatype Event = Event(cursor: nat, body: EventBody, createdAt: Time)

  datatype UserEvent = UserEvent(recipients: set<UserId>, event: Event)

  datatype State = State(
    accounts: map<UserId, Account>,
    friends: set<(UserId, UserId)>,
    blocks: set<(UserId, UserId)>,
    refusesFiles: set<(UserId, UserId)>,
    conversations: map<ConversationId, Conversation>,
    settings: map<(UserId, ConversationId), Settings>,
    muteAll: set<ConversationId>,
    joinRequests: map<RequestId, JoinRequest>,
    logs: map<ConversationId, seq<Message>>,
    dedup: map<(UserId, MessageId), (MessageId, nat)>,
    receipts: map<MessageId, Receipt>,
    expirations: map<MessageId, Time>,
    scheduled: seq<Scheduled>,
    attachments: map<AttachmentId, StoredAttachment>,
    readPositions: map<(UserId, ConversationId), nat>,
    events: seq<UserEvent>,
    cursor: nat)

  const EMPTY := State(map[], {}, {}, {}, map[], map[], {}, map[], map[], map[], map[], map[], [], map[], map[], [], 0)

  const DEFAULT_SETTINGS := Settings(0, false)
  const NO_RECEIPT := Receipt({}, {})
  const DELETED_NICKNAME := "已注销用户"
  const MAX_GROUP_MEMBERS := 500
  const RECALL_SECONDS := 120
  const DAY := 86400

  datatype Reply =
    | Done
    | Acknowledged(message: Message, id: MessageId, sequence: nat)
    | Messages(messages: seq<Message>)
    | Purged(keys: map<AttachmentId, StorageKey>)

  type Outcome = Result<(State, Reply)>

  datatype Op =
    | Register(user: UserId, nickname: string)
    | ChangeRelations(friends: set<(UserId, UserId)>, blocks: set<(UserId, UserId)>, refuses: set<(UserId, UserId)>,
                      notified: set<UserId>)
    | AcceptFriend(sender: UserId, recipient: UserId, created: ConversationId)
    | CreateDirect(actor: UserId, peer: UserId, created: ConversationId)
    | CreateGroup(actor: UserId, invited: seq<UserId>, created: ConversationId)
    | UpdateGroup(actor: UserId, conversation: ConversationId, described: bool, minted: Minted)
    | AddMembers(actor: UserId, conversation: ConversationId, invited: seq<UserId>, minted: Minted)
    | LeaveGroup(actor: UserId, conversation: ConversationId, minted: Minted)
    | DisbandGroup(actor: UserId, conversation: ConversationId)
    | UpdateMember(actor: UserId, conversation: ConversationId, target: UserId, renamed: bool, role: Option<Role>,
                   mutedUntil: Option<Option<Time>>, minted: Minted)
    | RemoveMember(actor: UserId, conversation: ConversationId, target: UserId, minted: Minted)
    | TransferOwnership(actor: UserId, conversation: ConversationId, target: UserId, minted: Minted)
    | SetMuteAll(actor: UserId, conversation: ConversationId, muted: bool, minted: Minted)
    | RequestJoin(actor: UserId, conversation: ConversationId, request: RequestId)
    | DecideJoin(actor: UserId, request: RequestId, accept: bool, minted: Minted)
    | Send(actor: UserId, conversation: ConversationId, sent: SendRequest, id: MessageId)
    | Forward(actor: UserId, sources: seq<MessageId>, conversation: ConversationId, merged: bool, minteds: seq<Minted>)
    | Recall(actor: UserId, id: MessageId)
    | AcknowledgeDelivery(actor: UserId, id: MessageId)
    | MarkRead(actor: UserId, conversation: ConversationId, through: nat)
    | MarkAllRead(actor: UserId)
    | UpdateSettings(actor: UserId, conversation: ConversationId, manuallyUnread: Option<bool>)
    | Schedule(item: Scheduled)
    | CancelScheduled(actor: UserId, request: RequestId)
    | DropScheduled(request: RequestId)
    | AuthorizeAttachment(actor: UserId, attachment: AttachmentId, byteSize: nat, metadata: string)
    | CompleteAttachment(actor: UserId, attachment: AttachmentId)
    | QuarantineAttachment(actor: UserId, attachment: AttachmentId)
    | CleanupAttachments
    | DeleteAccount(actor: UserId, passwordMatches: bool)

  // ----- lookups -----

  function LogOf(logs: map<ConversationId, seq<Message>>, c: ConversationId): seq<Message> {
    if c in logs then logs[c] else []
  }

  function LastSequence(log: seq<Message>): nat {
    if log == [] then 0 else log[|log| - 1].sequence.GetOr(0)
  }

  function SettingsOf(s: State, u: UserId, c: ConversationId): Settings {
    if (u, c) in s.settings then s.settings[(u, c)] else DEFAULT_SETTINGS
  }

  function ReadPosition(s: State, u: UserId, c: ConversationId): nat {
    if (u, c) in s.readPositions then s.readPositions[(u, c)] else 0
  }

  function ReceiptOf(receipts: map<MessageId, Receipt>, id: MessageId): Receipt {
    if id in receipts then receipts[id] else NO_RECEIPT
  }

  function Find(s: State, c: ConversationId): Result<Conversation> {
    if c in s.conversations then Ok(s.conversations[c]) else Err(NotFound)
  }

  ghost predicate HoldsAt(logs: map<ConversationId, seq<Message>>, c: ConversationId, i: nat, id: MessageId) {
    c in logs && i < |logs[c]| && logs[c][i].id == id
  }

  ghost function FindMessage(logs: map<ConversationId, seq<Message>>, id: MessageId): Result<Message> {
    if exists c, i: nat :: HoldsAt(logs, c, i, id)
    then var c, i: nat :| HoldsAt(logs, c, i, id); Ok(logs[c][i])
    else Err(NotFound)
  }

  predicate Involves(pair: (UserId, UserId), u: UserId) {
    pair.0 == u || pair.1 == u
  }

  predicate AreFriends(s: State, a: UserId, b: UserId) {
    exists pair :: pair in s.friends && Involves(pair, a) && Involves(pair, b)
  }

  function Max(a: nat, b: nat): nat {
    if a < b then b else a
  }

  // ----- building blocks -----

  function Publish(s: State, recipients: set<UserId>, body: EventBody, now: Time): State {
    s.(cursor := s.cursor + 1, events := s.events + [UserEvent(recipients, Event(s.cursor + 1, body, now))])
  }

  function Touched(conversations: map<ConversationId, Conversation>, c: ConversationId, now: Time)
    : map<ConversationId, Conversation>
  {
    if c in conversations then conversations[c := conversations[c].(updatedAt := now)] else conversations
  }

  function Touch(s: State, c: ConversationId, now: Time): State {
    s.(conversations := Touched(s.conversations, c, now))
  }

  function Append(s: State, message: Message): State {
    s.(logs := s.logs[message.conversation := LogOf(s.logs, message.conversation) + [message]])
  }

  /** A client message also enters the dedup table and is delivered to its own sender. */
  function FileMessage(s: State, message: Message, sequence: nat): State {
    var receipt := ReceiptOf(s.receipts, message.id);
    s.(dedup := s.dedup[(message.sender, message.clientId) := (message.id, sequence)],
       receipts := s.receipts[message.id := receipt.(deliveredTo := receipt.deliveredTo + {message.sender})])
  }

  function PostNotice(s: State, c: ConversationId, actor: UserId, notice: Notice, minted: Minted, now: Time): Result<State> {
    var conversation :- Find(s, c);
    var sequence := LastSequence(LogOf(s.logs, c)) + 1;
    var pending :- PendingMessage(minted.id, minted.clientId, c, actor, System(notice), now);
    var message :- MarkSent(pending, sequence, now);
    Ok(Publish(Touch(Append(s, message), c, now), conversation.members.Keys, MessageCreated(message), now))
  }

  /** The new conversation, with default settings for the members who have none. */
  function StoreConversation(s: State, c: ConversationId, conversation: Conversation): State {
    s.(conversations := s.conversations[c := conversation],
       settings := Defaults(NewKeys(c, conversation.members.Keys)) + s.settings)
  }

  function NewKeys(c: ConversationId, users: set<UserId>): set<(UserId, ConversationId)> {
    set u | u in users :: (u, c)
  }

  function Defaults(keys: set<(UserId, ConversationId)>): map<(UserId, ConversationId), Settings> {
    map k | k in keys :: DEFAULT_SETTINGS
  }

  /** A notice in the group followed by a membership event for the given users. */
  function Announce(s: State, c: ConversationId, actor: UserId, notice: Notice, minted: Minted, recipients: set<UserId>,
                    now: Time): Outcome
  {
    var posted :- PostNotice(s, c, actor, notice, minted, now);
    Ok((Publish(posted, recipients, MembershipUpdated(c), now), Done))
  }

  function Replace(s: State, c: ConversationId, conversation: Conversation): State {
    s.(conversations := s.conversations[c := conversation])
  }

  // ----- relations and conversations -----

  function RegisterAccount(s: State, user: UserId, nickname: string): Outcome {
    if user in s.accounts then Err(AccountConflict) else Ok((s.(accounts := s.accounts[user := Account(nickname, false)]), Done))
  }

  /** Any change to friendships, blocks and file permissions. */
  function ReplaceRelations(s: State, friends: set<(UserId, UserId)>, blocks: set<(UserId, UserId)>,
                            refuses: set<(UserId, UserId)>, notified: set<UserId>, now: Time): Outcome
  {
    Ok((Publish(s.(friends := friends, blocks := blocks, refusesFiles := refuses), notified, RelationsChanged, now), Done))
  }

  function DirectOf(a: UserId, b: UserId, now: Time): Result<Conversation> {
    if a == b then Err(Invalid)
    else Ok(Conversation(Direct, map[a := Participant(Member, None, now), b := Participant(Member, None, now)], now))
  }

  function BecomeFriends(s: State, sender: UserId, recipient: UserId, c: ConversationId, now: Time): Outcome {
    var direct :- DirectOf(sender, recipient, now);
    var befriended := s.(friends := s.friends + {(sender, recipient)},
                         refusesFiles := s.refusesFiles - {(sender, recipient), (recipient, sender)});
    Ok((Publish(StoreConversation(befriended, c, direct), {sender, recipient}, RelationsChanged, now), Done))
  }

  predicate IsDirectBetween(conversation: Conversation, a: UserId, b: UserId) {
    |conversation.members| == 2 && conversation.CanRead(a) && conversation.CanRead(b) && conversation.kind.Direct?
  }

  function OpenDirect(s: State, actor: UserId, peer: UserId, c: ConversationId, now: Time): Outcome {
    var _ :- Need(AreFriends(s, actor, peer), Forbidden);
    if exists d :: d in s.conversations && IsDirectBetween(s.conversations[d], actor, peer) then Ok((s, Done))
    else
      var direct :- DirectOf(actor, peer, now);
      var stored := StoreConversation(s, c, direct);
      Ok((Publish(Publish(stored, {actor}, ConversationUpdated(c), now), {peer}, ConversationUpdated(c), now), Done))
  }

  function OpenGroup(s: State, actor: UserId, invited: seq<UserId>, c: ConversationId, now: Time): Outcome {
    var _ :- Need(forall u :: u in invited ==> u == actor || AreFriends(s, actor, u), Forbidden);
    var conversation :- GroupOf(actor, invited, now);
    Ok((Publish(StoreConversation(s, c, conversation), conversation.members.Keys, ConversationUpdated(c), now), Done))
  }

  function FindGroup(s: State, c: ConversationId): Result<Conversation> {
    var conversation :- Find(s, c);
    if conversation.kind.Group? then Ok(conversation) else Err(NotFound)
  }

  function EditGroup(s: State, actor: UserId, c: ConversationId, described: bool, minted: Minted, now: Time): Outcome {
    var conversation :- FindGroup(s, c);
    var _ :- Need(conversation.HasRoleAtLeast(actor, Administrator), Forbidden);
    Describe(Replace(s, c, conversation.(updatedAt := now)), actor, c, described, minted, conversation.members.Keys, now)
  }

  function Describe(s: State, actor: UserId, c: ConversationId, described: bool, minted: Minted, recipients: set<UserId>,
                    now: Time): Outcome
  {
    var posted :- if described then PostNotice(s, c, actor, GroupUpdated, minted, now) else Ok(s);
    Ok((Publish(posted, recipients, ConversationUpdated(c), now), Done))
  }

  /** Checked one invitation at a time: the first bad one decides the error. */
  function CheckInvited(s: State, actor: UserId, invited: seq<UserId>): Result<()> {
    if invited == [] then Ok(())
    else if invited[0] == actor || !AreFriends(s, actor, invited[0]) then Err(Forbidden)
    else if invited[0] !in s.accounts then Err(NotFound)
    else CheckInvited(s, actor, invited[1..])
  }

  function Newcomers(conversation: Conversation, invited: seq<UserId>): set<UserId> {
    (set u | u in invited) - conversation.members.Keys
  }

  function Admit(conversation: Conversation, newcomers: set<UserId>, now: Time): Conversation {
    conversation.(members := conversation.members + (map u | u in newcomers :: Participant(Member, None, now)), updatedAt := now)
  }

  function Welcome(s: State, actor: UserId, c: ConversationId, admitted: Conversation, newcomers: set<UserId>, minted: Minted,
                   now: Time): Outcome
  {
    var joined := Replace(s, c, admitted).(settings := s.settings + Defaults(NewKeys(c, newcomers)));
    var posted :- if newcomers == {} then Ok(joined) else PostNotice(joined, c, actor, MembersInvited(|newcomers|), minted, now);
    Ok((Publish(posted, admitted.members.Keys, MembershipUpdated(c), now), Done))
  }

  function InviteMembers(s: State, actor: UserId, c: ConversationId, invited: seq<UserId>, minted: Minted, now: Time): Outcome {
    var _ :- Need(1 <= |invited| <= 100, Invalid);
    var conversation :- FindGroup(s, c);
    var _ :- Need(conversation.CanRead(actor), Forbidden);
    var _ :- CheckInvited(s, actor, invited);
    var newcomers := Newcomers(conversation, invited);
    var admitted := Admit(conversation, newcomers, now);
    var _ :- Need(|admitted.members| <= MAX_GROUP_MEMBERS, Invalid);
    Welcome(s, actor, c, admitted, newcomers, minted, now)
  }

  function Leave(s: State, actor: UserId, c: ConversationId, minted: Minted, now: Time): Outcome {
    var conversation :- FindGroup(s, c);
    var _ :- Need(conversation.CanRead(actor), Forbidden);
    var _ :- Need(!conversation.HasRole(actor, Owner), Conflict);
    var left := conversation.(members := conversation.members - {actor}, updatedAt := now);
    var gone := Replace(s, c, left).(settings := s.settings - {(actor, c)});
    Announce(gone, c, actor, MemberLeft, minted, left.members.Keys, now)
  }

  function SettingsElsewhere(settings: map<(UserId, ConversationId), Settings>, c: ConversationId)
    : map<(UserId, ConversationId), Settings>
  {
    map k | k in settings && k.1 != c :: settings[k]
  }

  function Disband(s: State, actor: UserId, c: ConversationId, now: Time): Outcome {
    var conversation :- FindGroup(s, c);
    var _ :- Need(conversation.HasRoleAtLeast(actor, Owner), Forbidden);
    var gone := s.(conversations := s.conversations - {c},
                   settings := SettingsElsewhere(s.settings, c),
                   muteAll := s.muteAll - {c});
    Ok((Publish(gone, conversation.members.Keys, Disbanded(c), now), Done))
  }

  function Edited(member: Participant, role: Option<Role>, mutedUntil: Option<Option<Time>>): Participant {
    member.(role := role.GetOr(member.role), mutedUntil := mutedUntil.GetOr(member.mutedUntil))
  }

  function CheckEdit(members: map<UserId, Participant>, actor: UserId, target: UserId, renamed: bool, role: Option<Role>,
                     mutedUntil: Option<Option<Time>>): (r: Result<()>)
    ensures r.Ok? ==> actor in members && target in members
  {
    if actor !in members || target !in members then Err(Forbidden)
    else
      var actorRole, targetRole := members[actor].role, members[target].role;
      if renamed && actor != target && actorRole.Rank() < Administrator.Rank() then Err(Forbidden)
      else if role.Some? && (actorRole != Owner || role.value == Owner || targetRole == Owner) then Err(Forbidden)
      else if mutedUntil.Some? && (actorRole.Rank() < Administrator.Rank() || actorRole.Rank() <= targetRole.Rank()) then Err(Forbidden)
      else Ok(())
  }

  function EditMember(s: State, actor: UserId, c: ConversationId, target: UserId, renamed: bool, role: Option<Role>,
                      mutedUntil: Option<Option<Time>>, minted: Minted, now: Time): Outcome
  {
    var conversation :- FindGroup(s, c);
    var _ :- CheckEdit(conversation.members, actor, target, renamed, role, mutedUntil);
    ReplaceMember(s, actor, c, conversation, target, Edited(conversation.members[target], role, mutedUntil), minted, now)
  }

  function ReplaceMember(s: State, actor: UserId, c: ConversationId, conversation: Conversation, target: UserId,
                         edited: Participant, minted: Minted, now: Time): Outcome
  {
    Announce(Replace(s, c, conversation.(members := conversation.members[target := edited], updatedAt := now)),
             c, actor, MemberSettingsUpdated, minted, conversation.members.Keys, now)
  }

  function Remove(s: State, actor: UserId, c: ConversationId, target: UserId, minted: Minted, now: Time): Outcome {
    var conversation :- FindGroup(s, c);
    var removed :- WithoutMember(conversation, actor, target, now);
    Announce(Replace(s, c, removed).(settings := s.settings - {(target, c)}),
             c, actor, MemberRemoved, minted, removed.members.Keys, now)
  }

  function Transfer(s: State, actor: UserId, c: ConversationId, target: UserId, minted: Minted, now: Time): Outcome {
    var conversation :- FindGroup(s, c);
    var transferred :- WithOwner(conversation, actor, target, now);
    Announce(Replace(s, c, transferred), c, actor, OwnershipTransferred, minted, transferred.members.Keys, now)
  }

  function Muting(muteAll: set<ConversationId>, c: ConversationId, muted: bool): set<ConversationId> {
    if muted then muteAll + {c} else muteAll - {c}
  }

  function MuteGroup(s: State, actor: UserId, c: ConversationId, muted: bool, minted: Minted, now: Time): Outcome {
    var conversation :- FindGroup(s, c);
    var _ :- Need(conversation.HasRoleAtLeast(actor, Administrator), Forbidden);
    Announce(s.(muteAll := Muting(s.muteAll, c, muted)), c, actor, MuteAllChanged(muted), minted, conversation.members.Keys, now)
  }

  predicate IsWaiting(request: JoinRequest, c: ConversationId, u: UserId) {
    request == JoinRequest(c, u, Waiting)
  }

  predicate MayAsk(s: State, actor: UserId, c: ConversationId) {
    forall r :: r in s.joinRequests ==> !IsWaiting(s.joinRequests[r], c, actor)
  }

  function Reviewers(conversation: Conversation): set<UserId> {
    set u | u in conversation.members && conversation.HasRoleAtLeast(u, Administrator)
  }

  function AskToJoin(s: State, actor: UserId, c: ConversationId, request: RequestId, now: Time): Outcome {
    var conversation :- FindGroup(s, c);
    var _ :- Need(!conversation.CanRead(actor), Conflict);
    var _ :- Need(MayAsk(s, actor, c), Conflict);
    Ok((Publish(s.(joinRequests := s.joinRequests[request := JoinRequest(c, actor, Waiting)]),
                Reviewers(conversation), JoinRequestUpdated(request), now), Done))
  }

  function ReviewJoin(s: State, actor: UserId, request: RequestId, accept: bool, minted: Minted, now: Time): Outcome {
    if request !in s.joinRequests then Err(NotFound)
    else
      var JoinRequest(c, applicant, status) := s.joinRequests[request];
      var _ :- Need(status == Waiting, Conflict);
      var conversation :- Find(s, c);
      var _ :- Need(conversation.HasRoleAtLeast(actor, Administrator), Forbidden);
      var reviewed := s.(joinRequests := s.joinRequests[request := JoinRequest(c, applicant, if accept then Accepted else Rejected)]);
      var recipients := conversation.members.Keys + {applicant};
      if !accept then Ok((Publish(reviewed, recipients, JoinRequestUpdated(request), now), Done))
      else Enter(reviewed, actor, request, c, conversation, applicant, minted, now)
  }

  /** The applicant's entry is inserted afresh, whatever it was before. */
  function Enter(s: State, actor: UserId, request: RequestId, c: ConversationId, conversation: Conversation, applicant: UserId,
                 minted: Minted, now: Time): Outcome
  {
    var joined := Replace(s, c, conversation.(members := conversation.members[applicant := Participant(Member, None, now)],
                                              updatedAt := now))
                  .(settings := s.settings[(applicant, c) := DEFAULT_SETTINGS]);
    var posted :- PostNotice(joined, c, actor, MemberJoined, minted, now);
    Ok((Publish(posted, conversation.members.Keys + {applicant}, JoinRequestUpdated(request), now), Done))
  }

  // ----- messages -----

  function CheckMentions(s: State, actor: UserId, c: ConversationId, request: SendRequest): Result<()> {
    if request.mentions == {} && !request.mentionAll then Ok(())
    else if !request.content.Text? || |request.mentions| > 50 then Err(Invalid)
    else
      var conversation :- FindGroup(s, c);
      var _ :- Need(conversation.CanRead(actor), Forbidden);
      var _ :- Need(forall u :: u in request.mentions ==> u != actor && u in conversation.members, Invalid);
      Need(!(request.mentionAll && conversation.HasRole(actor, Member)), Forbidden)
  }

  ghost predicate IsFirstPeer(members: map<UserId, Participant>, actor: UserId, peer: UserId) {
    peer in members && peer != actor && forall u :: u in members && u != actor ==> peer <= u
  }

  ghost function Recipients(s: State, actor: UserId, c: ConversationId, content: Content, now: Time): Result<set<UserId>> {
    var conversation :- Find(s, c);
    var _ :- Need(conversation.CanSend(actor, now), Forbidden);
    var _ :- Need(!(conversation.kind.Group? && c in s.muteAll && conversation.HasRole(actor, Member)), Forbidden);
    if conversation.kind.Group? then Ok(conversation.members.Keys)
    else if !exists p: UserId :: IsFirstPeer(conversation.members, actor, p) then Err(NotFound)
    else
      var peer: UserId :| IsFirstPeer(conversation.members, actor, peer);
      var _ :- Need(AreFriends(s, actor, peer) && (actor, peer) !in s.blocks && (peer, actor) !in s.blocks, Forbidden);
      var _ :- Need(!(content.Media? && (peer, actor) in s.refusesFiles), Forbidden);
      Ok(conversation.members.Keys)
  }

  function CheckAttachment(s: State, actor: UserId, content: Content): Result<()> {
    match content
    case Media(_, attachment) =>
      if attachment.id !in s.attachments then Err(Forbidden)
      else
        var stored := s.attachments[attachment.id];
        var _ :- Need(stored.owner == actor && stored.available, Forbidden);
        Need(stored.attachment == attachment, Invalid)
    case Bundle(_) => Err(Forbidden)
    case Text(_) => Ok(())
    case System(_) => Ok(())
  }

  predicate ExpiryInRange(expiresIn: Option<nat>) {
    expiresIn.Some? ==> 5 <= expiresIn.value <= 604800
  }

  function Timed(expirations: map<MessageId, Time>, id: MessageId, expiresIn: Option<nat>, now: Time): map<MessageId, Time> {
    if expiresIn.Some? then expirations[id := now + expiresIn.value] else expirations
  }

  /** The accepted message at the end of its log, filed under its key, with one event for the recipients. */
  function Post(s: State, actor: UserId, c: ConversationId, request: SendRequest, id: MessageId, recipients: set<UserId>,
                now: Time): Outcome
  {
    var sequence := LastSequence(LogOf(s.logs, c)) + 1;
    var pending :- PendingMessage(id, request.clientId, c, actor, request.content, now);
    var message :- MarkSent(pending.(mentions := request.mentions, mentionAll := request.mentionAll), sequence, now);
    var filed := FileMessage(Append(s, message), message, sequence);
    var timed := filed.(expirations := Timed(s.expirations, id, request.expiresIn, now));
    Ok((Publish(Touch(timed, c, now), recipients, MessageCreated(message), now), Acknowledged(message, id, sequence)))
  }

  ghost function SendMessage(s: State, actor: UserId, c: ConversationId, request: SendRequest, id: MessageId, now: Time): Outcome {
    var _ :- Need(ExpiryInRange(request.expiresIn), Invalid);
    var key := (actor, request.clientId);
    if key in s.dedup then
      var (existing, sequence) := s.dedup[key];
      var message :- FindMessage(s.logs, existing);
      Ok((s, Acknowledged(message, existing, sequence)))
    else
      var _ :- CheckMentions(s, actor, c, request);
      var recipients :- Recipients(s, actor, c, request.content, now);
      var _ :- CheckAttachment(s, actor, request.content);
      Post(s, actor, c, request, id, recipients, now)
  }

  ghost function Source(s: State, actor: UserId, id: MessageId, merged: bool): Result<Forwarded> {
    var message :- FindMessage(s.logs, id);
    var conversation :- Find(s, message.conversation);
    var _ :- Need(conversation.CanRead(actor) && !message.content.System?, Forbidden);
    var _ :- Need(!(merged && message.content.Bundle?), Invalid);
    var name := if message.sender in s.accounts then s.accounts[message.sender].nickname else DELETED_NICKNAME;
    Ok(Forwarded(message.sender, name, message.content, message.serverCreatedAt.GetOr(message.createdAt)))
  }

  ghost function Sources(s: State, actor: UserId, ids: seq<MessageId>, merged: bool): (r: Result<seq<Forwarded>>)
    ensures r.Ok? ==> |r.value| == |ids|
  {
    if ids == [] then Ok([])
    else
      var first :- Source(s, actor, ids[0], merged);
      var rest :- Sources(s, actor, ids[1..], merged);
      Ok([first] + rest)
  }

  function AppendForwarded(s: State, actor: UserId, c: ConversationId, content: Content, minted: Minted, sequence: nat,
                           recipients: set<UserId>, now: Time): Result<(State, Message)>
  {
    var pending :- PendingMessage(minted.id, minted.clientId, c, actor, content, now);
    var message :- MarkSent(pending, sequence, now);
    Ok((Publish(FileMessage(Append(s, message), message, sequence), recipients, MessageCreated(message), now), message))
  }

  function AppendAll(s: State, actor: UserId, c: ConversationId, contents: seq<Content>, minteds: seq<Minted>, last: nat,
                     recipients: set<UserId>, now: Time): Result<(State, seq<Message>)>
    requires |minteds| >= |contents|
    decreases |contents|
  {
    if contents == [] then Ok((s, []))
    else
      var (next, message) :- AppendForwarded(s, actor, c, contents[0], minteds[0], last + 1, recipients, now);
      var (final, messages) :- AppendAll(next, actor, c, contents[1..], minteds[1..], last + 1, recipients, now);
      Ok((final, [message] + messages))
  }

  function ForwardContents(sources: seq<Forwarded>, merged: bool): seq<Content> {
    if merged then [Bundle(sources)] else seq(|sources|, i requires 0 <= i < |sources| => sources[i].content)
  }

  predicate Distinct(ids: seq<MessageId>) {
    forall i, j :: 0 <= i < j < |ids| ==> ids[i] != ids[j]
  }

  ghost function Forwards(s: State, actor: UserId, ids: seq<MessageId>, c: ConversationId, merged: bool,
                          minteds: seq<Minted>, now: Time): Outcome
    requires |minteds| == |ids|
  {
    var _ :- Need(1 <= |ids| <= 100 && Distinct(ids), Invalid);
    var _ :- Need(merged ==> |ids| >= 2, Invalid);
    var sources :- Sources(s, actor, ids, merged);
    var target :- Find(s, c);
    var _ :- Need(target.CanSend(actor, now), Forbidden);
    var (appended, messages) :-
      AppendAll(s, actor, c, ForwardContents(sources, merged), minteds, LastSequence(LogOf(s.logs, c)), target.members.Keys, now);
    Ok((Touch(appended, c, now), Messages(messages)))
  }

  /** The log with the message of this id replaced by its recalled form. */
  function RecallIn(log: seq<Message>, id: MessageId): seq<Message> {
    seq(|log|, i requires 0 <= i < |log| =>
      if log[i].id == id then log[i].(status := Recalled, content := System(MessageRecalled)) else log[i])
  }

  ghost function RecallMessage(s: State, actor: UserId, id: MessageId, now: Time): Outcome {
    var original :- FindMessage(s.logs, id);
    var c := original.conversation;
    var conversation :- Find(s, c);
    var _ :- Need(conversation.kind.Group? ==> conversation.CanRead(actor), Forbidden);
    var _ :- Need(original.sender == actor || (conversation.kind.Group? && conversation.HasRoleAtLeast(actor, Administrator)), Forbidden);
    var _ :- Need(original.status != Recalled && !(original.sender == actor && now - original.createdAt > RECALL_SECONDS), Conflict);
    var recalled := original.(status := Recalled, content := System(MessageRecalled));
    Ok((Publish(s.(logs := s.logs[c := RecallIn(LogOf(s.logs, c), id)], expirations := s.expirations - {id}),
                conversation.members.Keys, MessageRecalledEvent(recalled), now), Messages([recalled])))
  }

  ghost function Deliver(s: State, actor: UserId, id: MessageId, now: Time): Outcome {
    var message :- FindMessage(s.logs, id);
    var conversation :- Find(s, message.conversation);
    var _ :- Need(conversation.CanRead(actor) && message.sender != actor, Forbidden);
    var receipt := ReceiptOf(s.receipts, id);
    Ok((Publish(s.(receipts := s.receipts[id := receipt.(deliveredTo := receipt.deliveredTo + {actor})]),
                {message.sender}, MessageDelivered(id, actor), now), Done))
  }

  // ----- read state -----

  /** The messages a reader of everything up to a sequence has read: other people's, up to there. */
  function ReadIds(log: seq<Message>, reader: UserId, through: nat): set<MessageId> {
    set i | 0 <= i < |log| && log[i].sender != reader && log[i].sequence.Some? && log[i].sequence.value <= through :: log[i].id
  }

  function Receive(receipts: map<MessageId, Receipt>, ids: set<MessageId>, reader: UserId): map<MessageId, Receipt> {
    receipts + (map id | id in ids ::
      Receipt(ReceiptOf(receipts, id).deliveredTo + {reader}, ReceiptOf(receipts, id).readBy + {reader}))
  }

  function Advance(s: State, actor: UserId, c: ConversationId, next: nat): State {
    s.(receipts := Receive(s.receipts, ReadIds(LogOf(s.logs, c), actor, next), actor),
       readPositions := s.readPositions[(actor, c) := Max(ReadPosition(s, actor, c), next)],
       settings := s.settings[(actor, c) := Settings(Max(SettingsOf(s, actor, c).lastRead, next), false)])
  }

  function ReadUpTo(s: State, actor: UserId, c: ConversationId, through: nat, now: Time): Outcome {
    var conversation :- Find(s, c);
    var _ :- Need(conversation.CanRead(actor), Forbidden);
    var latest := LastSequence(LogOf(s.logs, c));
    var next := if through < latest then through else latest;
    Ok((Publish(Advance(s, actor, c, next), conversation.members.Keys, ReadThrough(actor, c, next), now), Done))
  }

  function ReadableKeys(s: State, actor: UserId): set<(UserId, ConversationId)> {
    set c | c in s.conversations && s.conversations[c].CanRead(actor) :: (actor, c)
  }

  function Latest(keys: set<(UserId, ConversationId)>, logs: map<ConversationId, seq<Message>>): map<(UserId, ConversationId), nat> {
    map k | k in keys :: LastSequence(LogOf(logs, k.1))
  }

  function LatestSettings(keys: set<(UserId, ConversationId)>, logs: map<ConversationId, seq<Message>>)
    : map<(UserId, ConversationId), Settings>
  {
    map k | k in keys :: Settings(LastSequence(LogOf(logs, k.1)), false)
  }

  function ReadEverything(s: State, actor: UserId, now: Time): Outcome {
    var keys := ReadableKeys(s, actor);
    Ok((Publish(s.(readPositions := s.readPositions + Latest(keys, s.logs), settings := s.settings + LatestSettings(keys, s.logs)),
                {actor}, AllRead, now), Done))
  }

  function ChangeSettings(s: State, actor: UserId, c: ConversationId, manuallyUnread: Option<bool>, now: Time): Outcome {
    var conversation :- Find(s, c);
    var _ :- Need(conversation.CanRead(actor), Forbidden);
    var current := SettingsOf(s, actor, c);
    Ok((Publish(s.(settings := s.settings[(actor, c) := current.(manuallyUnread := manuallyUnread.GetOr(current.manuallyUnread))]),
                {actor}, SettingsChanged(c), now), Done))
  }

  /** The number shown next to a conversation: other people's messages past the last one read. */
  function Unread(log: seq<Message>, reader: UserId, lastRead: nat): nat {
    if log == [] then 0
    else
      var last := log[|log| - 1];
      Unread(log[..|log| - 1], reader, lastRead)
      + (if last.sender != reader && last.sequence.Some? && last.sequence.value > lastRead then 1 else 0)
  }

  // ----- scheduled messages -----

  function Retain<T>(xs: seq<T>, keep: T -> bool): seq<T> {
    if xs == [] then []
    else
      var kept := Retain(xs[..|xs| - 1], keep);
      if keep(xs[|xs| - 1]) then kept + [xs[|xs| - 1]] else kept
  }

  function SameKey(item: Scheduled, actor: UserId, clientId: MessageId): bool {
    item.actor == actor && item.request.clientId == clientId
  }

  function ScheduleMessage(s: State, item: Scheduled, now: Time): Outcome {
    var _ :- Need(ContentIsValid(item.request.content), Invalid);
    var _ :- Need(now + 10 <= item.dueAt <= now + 30 * DAY && ExpiryInRange(item.request.expiresIn), Invalid);
    var _ :- CheckMentions(s, item.actor, item.conversation, item.request);
    var conversation :- Find(s, item.conversation);
    var _ :- Need(conversation.CanSend(item.actor, now), Forbidden);
    var _ :- Need((forall e :: e in s.scheduled ==> !SameKey(e, item.actor, item.request.clientId))
                  && (item.actor, item.request.clientId) !in s.dedup, Conflict);
    Ok((s.(scheduled := s.scheduled + [item]), Done))
  }

  function CancelSchedule(s: State, actor: UserId, request: RequestId): Outcome {
    var kept := Retain(s.scheduled, (e: Scheduled) => !(e.id == request && e.actor == actor));
    var _ :- Need(|kept| != |s.scheduled|, NotFound);
    Ok((s.(scheduled := kept), Done))
  }

  function DropSchedule(s: State, request: RequestId): Outcome {
    Ok((s.(scheduled := Retain(s.scheduled, (e: Scheduled) => e.id != request)), Done))
  }

  // ----- attachments -----

  function Authorize(s: State, actor: UserId, id: AttachmentId, byteSize: nat, metadata: string, now: Time): Outcome {
    var attachment := Attachment(id, byteSize, Upload(actor, id), metadata);
    Ok((s.(attachments := s.attachments[id := StoredAttachment(attachment, actor, now + 600, false, false)]), Done))
  }

  function OwnedAttachment(s: State, actor: UserId, id: AttachmentId): Result<StoredAttachment> {
    if id in s.attachments && s.attachments[id].owner == actor then Ok(s.attachments[id]) else Err(NotFound)
  }

  function Complete(s: State, actor: UserId, id: AttachmentId, now: Time): Outcome {
    var stored :- OwnedAttachment(s, actor, id);
    var _ :- Need(stored.expiresAt > now, Conflict);
    var _ :- Need(!stored.quarantined, Forbidden);
    Ok((s.(attachments := s.attachments[id := stored.(available := true)]), Done))
  }

  function Quarantine(s: State, actor: UserId, id: AttachmentId, now: Time): Outcome {
    var stored :- OwnedAttachment(s, actor, id);
    var _ :- Need(!stored.available, NotFound);
    Ok((s.(attachments := s.attachments[id := stored.(quarantined := true, expiresAt := now + 7 * DAY)]), Done))
  }

  function Expired(attachments: map<AttachmentId, StoredAttachment>, now: Time): set<AttachmentId> {
    set id | id in attachments && !attachments[id].available && attachments[id].expiresAt <= now
  }

  function StorageKeys(attachments: map<AttachmentId, StoredAttachment>, ids: set<AttachmentId>): map<AttachmentId, StorageKey>
    requires ids <= attachments.Keys
  {
    map id | id in ids :: attachments[id].attachment.storageKey
  }

  function Cleanup(s: State, now: Time): Outcome {
    var expired := Expired(s.attachments, now);
    Ok((s.(attachments := s.attachments - expired), Purged(StorageKeys(s.attachments, expired))))
  }

  // ----- account deletion -----

  function Contacts(s: State, actor: UserId): set<UserId> {
    (set pair | pair in s.friends && Involves(pair, actor) :: if pair.0 == actor then pair.1 else pair.0)
    + (set c, u | c in s.conversations && s.conversations[c].CanRead(actor) && u in s.conversations[c].members :: u)
    - {actor}
  }

  function Unrelated(pairs: set<(UserId, UserId)>, actor: UserId): set<(UserId, UserId)> {
    set pair | pair in pairs && !Involves(pair, actor)
  }

  function OthersEntries<T>(entries: map<(UserId, ConversationId), T>, actor: UserId): map<(UserId, ConversationId), T> {
    map k | k in entries && k.0 != actor :: entries[k]
  }

  ghost function DetachFromAll(conversations: map<ConversationId, Conversation>, actor: UserId, now: Time)
    : map<ConversationId, Conversation>
  {
    map c | c in conversations :: Detached(conversations[c], actor, now)
  }

  function Purge(s: State, actor: UserId): State {
    s.(friends := Unrelated(s.friends, actor),
       refusesFiles := Unrelated(s.refusesFiles, actor),
       settings := OthersEntries(s.settings, actor),
       readPositions := OthersEntries(s.readPositions, actor),
       blocks := Unrelated(s.blocks, actor),
       scheduled := Retain(s.scheduled, (e: Scheduled) => e.actor != actor))
  }

  ghost function Delete(s: State, actor: UserId, passwordMatches: bool, now: Time): Outcome {
    var _ :- Need(actor in s.accounts && !s.accounts[actor].deleted, NotFound);
    var _ :- Need(passwordMatches, InvalidCredentials);
    var recipients := Contacts(s, actor);
    var anonymous := s.(conversations := DetachFromAll(s.conversations, actor, now),
                        accounts := s.accounts[actor := Account(DELETED_NICKNAME, true)]);
    Ok((Publish(Purge(anonymous, actor), recipients, AccountDeleted(actor), now), Done))
  }

  // ----- the whole service -----

  predicate MintsEnough(op: Op) {
    op.Forward? ==> |op.minteds| == |op.sources|
  }

  predicate EditsGroups(op: Op) {
    op.UpdateGroup? || op.AddMembers? || op.LeaveGroup? || op.DisbandGroup? || op.UpdateMember? || op.RemoveMember?
    || op.TransferOwnership? || op.SetMuteAll? || op.RequestJoin? || op.DecideJoin?
  }

  predicate HandlesMessages(op: Op) {
    op.Send? || op.Forward? || op.Recall? || op.AcknowledgeDelivery? || op.MarkRead? || op.MarkAllRead? || op.UpdateSettings?
    || op.Schedule? || op.CancelScheduled? || op.DropScheduled?
  }

  function ApplyToGroup(s: State, op: Op, now: Time): Outcome
    requires EditsGroups(op)
  {
    match op
    case UpdateGroup(actor, c, described, minted) => EditGroup(s, actor, c, described, minted, now)
    case AddMembers(actor, c, invited, minted) => InviteMembers(s, actor, c, invited, minted, now)
    case LeaveGroup(actor, c, minted) => Leave(s, actor, c, minted, now)
    case DisbandGroup(actor, c) => Disband(s, actor, c, now)
    case UpdateMember(actor, c, target, renamed, role, mutedUntil, minted) =>
      EditMember(s, actor, c, target, renamed, role, mutedUntil, minted, now)
    case RemoveMember(actor, c, target, minted) => Remove(s, actor, c, target, minted, now)
    case TransferOwnership(actor, c, target, minted) => Transfer(s, actor, c, target, minted, now)
    case SetMuteAll(actor, c, muted, minted) => MuteGroup(s, actor, c, muted, minted, now)
    case RequestJoin(actor, c, request) => AskToJoin(s, actor, c, request, now)
    case DecideJoin(actor, request, accept, minted) => ReviewJoin(s, actor, request, accept, minted, now)
  }

  ghost function ApplyToMessages(s: State, op: Op, now: Time): Outcome
    requires HandlesMessages(op) && MintsEnough(op)
  {
    match op
    case Send(actor, c, sent, id) => SendMessage(s, actor, c, sent, id, now)
    case Forward(actor, sources, c, merged, minteds) => Forwards(s, actor, sources, c, merged, minteds, now)
    case Recall(actor, id) => RecallMessage(s, actor, id, now)
    case AcknowledgeDelivery(actor, id) => Deliver(s, actor, id, now)
    case MarkRead(actor, c, through) => ReadUpTo(s, actor, c, through, now)
    case MarkAllRead(actor) => ReadEverything(s, actor, now)
    case UpdateSettings(actor, c, manuallyUnread) => ChangeSettings(s, actor, c, manuallyUnread, now)
    case Schedule(item) => ScheduleMessage(s, item, now)
    case CancelScheduled(actor, request) => CancelSchedule(s, actor, request)
    case DropScheduled(request) => DropSchedule(s, request)
  }

  ghost function ApplyToAccounts(s: State, op: Op, now: Time): Outcome
    requires !EditsGroups(op) && !HandlesMessages(op)
  {
    match op
    case Register(user, nickname) => RegisterAccount(s, user, nickname)
    case ChangeRelations(friends, blocks, refuses, notified) => ReplaceRelations(s, friends, blocks, refuses, notified, now)
    case AcceptFriend(sender, recipient, c) => BecomeFriends(s, sender, recipient, c, now)
    case CreateDirect(actor, peer, c) => OpenDirect(s, actor, peer, c, now)
    case CreateGroup(actor, invited, c) => OpenGroup(s, actor, invited, c, now)
    case AuthorizeAttachment(actor, id, byteSize, metadata) => Authorize(s, actor, id, byteSize, metadata, now)
    case CompleteAttachment(actor, id) => Complete(s, actor, id, now)
    case QuarantineAttachment(actor, id) => Quarantine(s, actor, id, now)
    case CleanupAttachments => Cleanup(s, now)
    case DeleteAccount(actor, passwordMatches) => Delete(s, actor, passwordMatches, now)
  }

  ghost function Apply(s: State, op: Op, now: Time): Outcome
    requires MintsEnough(op)
  {
    if EditsGroups(op) then ApplyToGroup(s, op, now)
    else if HandlesMessages(op) then ApplyToMessages(s, op, now)
    else ApplyToAccounts(s, op, now)
  }

  /** One committed or rolled-back operation. */
  ghost function Step(s: State, op: Op, now: Time): State
    requires MintsEnough(op)
  {
    var outcome := Apply(s, op, now);
    if outcome.Ok? then outcome.value.0 else s
  }
}
