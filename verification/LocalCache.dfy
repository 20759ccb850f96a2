/** The desktop client's local cache: tables whose payloads can be kept in the clear or encrypted.
    Encryption is symbolic: a sealed value opens only under its own key. */
module LocalCache {
  import opened Domain

  type CacheKey = nat
  type Json = string

  const ENCRYPTED_PREFIX := "enc:v1:"
  const MAX_DRAFT := 8000

  // ----- stored values -----

  datatype Cell<T> = Clear(value: T) | Sealed(key: CacheKey, value: T)

  /** `protect` for JSON texts, which never begin with the marker of sealed values. */
  function Protect<T>(cell: Cell<T>, key: Option<CacheKey>): Cell<T> {
    if key.Some? && cell.Clear? then Sealed(key.value, cell.value) else cell
  }

  /** `unprotect` for JSON texts. */
  function Unprotect<T>(cell: Cell<T>, key: Option<CacheKey>): Result<T> {
    match cell
    case Clear(value) => Ok(value)
    case Sealed(k, value) => if key == Some(k) then Ok(value) else Err(Storage)
  }

  /** A free text that looks like a sealed value. */
  predicate IsMarked(body: string) {
    ENCRYPTED_PREFIX <= body
  }

  /** `protect` for free texts: one that looks sealed is taken to be sealed and stored as it is. */
  function ProtectText(cell: Cell<string>, key: Option<CacheKey>): Cell<string> {
    if cell.Clear? && IsMarked(cell.value) then cell else Protect(cell, key)
  }

  /** `unprotect` for free texts: one that only looks sealed does not decode or does not authenticate. */
  function UnprotectText(cell: Cell<string>, key: Option<CacheKey>): Result<string> {
    if cell.Clear? && IsMarked(cell.value) then Err(Storage) else Unprotect(cell, key)
  }

  // ----- rows -----

  datatype Profile = Profile(id: UserId, username: string, nickname: string, avatar: Option<string>, signature: string,
                             presence: string)

  datatype UserColumns = UserColumns(username: string, nickname: string, avatar: Option<string>, signature: string)

  datatype UserRow = UserRow(columns: UserColumns, presence: string, payload: Cell<Profile>)

  datatype Room = Room(id: ConversationId, kind: ConversationKind, name: string, pinned: bool, muted: bool)

  datatype RoomRow = RoomRow(kind: ConversationKind, name: string, pinned: bool, muted: bool, payload: Cell<Room>)

  datatype Kind = TextKind | MediaKind | BundleKind | SystemKind

  datatype MessageRow = MessageRow(clientId: MessageId, conversation: ConversationId, sender: UserId, sequence: Option<nat>,
                                   kind: Kind, payload: Cell<Message>, status: Status, createdAt: Time)

  datatype SearchEntry = SearchEntry(conversation: ConversationId, sender: UserId, body: string)

  datatype OutboxRow = OutboxRow(conversation: ConversationId, payload: Cell<Json>, attempts: nat, nextAttemptAt: Time,
                                 lastError: Option<string>, createdAt: Time)

  datatype Snapshot = Snapshot(profile: Profile, friends: seq<Profile>, rooms: seq<Room>)

  /** The tables, and the key in memory when encryption is on. `search` lists the index entries of each message id. */
  datatype Cache = Cache(
    users: map<UserId, UserRow>,
    rooms: map<ConversationId, RoomRow>,
    messages: map<MessageId, MessageRow>,
    search: map<MessageId, seq<SearchEntry>>,
    drafts: map<ConversationId, Cell<string>>,
    outbox: map<MessageId, OutboxRow>,
    bootstrap: Option<Cell<Snapshot>>,
    key: Option<CacheKey>)

  const NEW_CACHE := Cache(map[], map[], map[], map[], map[], map[], None, None)
  const BLANK := UserColumns("", "", None, "")

  datatype Op =
    | CacheBootstrap(snapshot: Snapshot)
    | CacheMessages(messages: seq<Message>)
    | SaveDraft(conversation: ConversationId, body: string)
    | Enqueue(clientId: MessageId, conversation: ConversationId, payload: Json, now: Time)
    | Acknowledge(clientId: MessageId)
    | RetryNow(clientId: MessageId, now: Time)
    | RecordFailure(clientId: MessageId, code: string, nextAttemptAt: Time)
    | DiscardPending(clientId: MessageId)
    | ClearAccount
    | SetEncryption(enabled: bool, newKey: CacheKey)

  // ----- bootstrap -----

  function ColumnsOf(profile: Profile): UserColumns {
    UserColumns(profile.username, profile.nickname, profile.avatar, profile.signature)
  }

  function UserRowOf(profile: Profile, key: Option<CacheKey>): UserRow {
    UserRow(if key.Some? then BLANK else ColumnsOf(profile), profile.presence, Protect(Clear(profile), key))
  }

  function CacheProfiles(users: map<UserId, UserRow>, profiles: seq<Profile>, key: Option<CacheKey>): map<UserId, UserRow> {
    if profiles == [] then users
    else
      var n := |profiles| - 1;
      CacheProfiles(users, profiles[..n], key)[profiles[n].id := UserRowOf(profiles[n], key)]
  }

  function RoomRowOf(room: Room, key: Option<CacheKey>): RoomRow {
    RoomRow(room.kind, if key.Some? then "" else room.name, room.pinned, room.muted, Protect(Clear(room), key))
  }

  function CacheRooms(rows: map<ConversationId, RoomRow>, rooms: seq<Room>, key: Option<CacheKey>): map<ConversationId, RoomRow> {
    if rooms == [] then rows
    else
      var n := |rooms| - 1;
      CacheRooms(rows, rooms[..n], key)[rooms[n].id := RoomRowOf(rooms[n], key)]
  }

  function CacheSnapshot(s: Cache, snapshot: Snapshot): Cache {
    s.(users := CacheProfiles(s.users, [snapshot.profile] + snapshot.friends, s.key),
       rooms := CacheRooms(s.rooms, snapshot.rooms, s.key),
       bootstrap := Some(Protect(Clear(snapshot), s.key)))
  }

  // ----- messages -----

  function KindOf(content: Content): Kind {
    match content
    case Text(_) => TextKind
    case Media(_, _) => MediaKind
    case Bundle(_) => BundleKind
    case System(_) => SystemKind
  }

  predicate SharesKey(row: MessageRow, sender: UserId, clientId: MessageId) {
    row.sender == sender && row.clientId == clientId
  }

  /** Rows holding the same sent message under another id. */
  function Stale(messages: map<MessageId, MessageRow>, m: Message): set<MessageId> {
    set id | id in messages && SharesKey(messages[id], m.sender, m.clientId) && id != m.id
  }

  function RowFor(messages: map<MessageId, MessageRow>, m: Message, key: Option<CacheKey>): MessageRow {
    var payload := Protect(Clear(m), key);
    if m.id in messages then messages[m.id].(sequence := m.sequence, payload := payload, status := m.status)
    else MessageRow(m.clientId, m.conversation, m.sender, m.sequence, KindOf(m.content), payload, m.status, m.createdAt)
  }

  predicate TakesSequence(row: MessageRow, other: MessageRow) {
    row.sequence.Some? && row.sequence == other.sequence && row.conversation == other.conversation
  }

  /** The foreign key and the uniqueness of sequences within a conversation. */
  predicate FitsIn(messages: map<MessageId, MessageRow>, rooms: set<ConversationId>, id: MessageId, row: MessageRow) {
    (id in messages || row.conversation in rooms)
    && forall other :: other in messages && other != id ==> !TakesSequence(row, messages[other])
  }

  function Indexed(search: map<MessageId, seq<SearchEntry>>, m: Message, key: Option<CacheKey>): map<MessageId, seq<SearchEntry>> {
    var others := search - {m.id};
    if key.None? && m.content.Text?
    then others[m.id := [SearchEntry(m.conversation, m.sender, m.content.text)]]
    else others
  }

  function CacheMessage(s: Cache, m: Message): Result<Cache> {
    var stale := Stale(s.messages, m);
    var kept := s.messages - stale;
    var row := RowFor(kept, m, s.key);
    var _ :- Need(FitsIn(kept, s.rooms.Keys, m.id, row), Storage);
    Ok(s.(messages := kept[m.id := row], search := Indexed(s.search - stale, m, s.key)))
  }

  function CacheAll(s: Cache, messages: seq<Message>): Result<Cache>
    decreases |messages|
  {
    if messages == [] then Ok(s)
    else
      var next :- CacheMessage(s, messages[0]);
      CacheAll(next, messages[1..])
  }

  // ----- drafts and outbox -----

  function StoreDraft(s: Cache, c: ConversationId, body: string): Result<Cache> {
    var _ :- Need(|body| <= MAX_DRAFT, Invalid);
    var _ :- Need(c in s.rooms, Storage);
    Ok(s.(drafts := s.drafts[c := ProtectText(Clear(body), s.key)]))
  }

  /** Queueing again replaces the payload only. */
  function Queue(s: Cache, clientId: MessageId, c: ConversationId, payload: Json, now: Time): Result<Cache> {
    var stored := Protect(Clear(payload), s.key);
    var _ :- Need(clientId in s.outbox || c in s.rooms, Storage);
    var row := if clientId in s.outbox then s.outbox[clientId].(payload := stored) else OutboxRow(c, stored, 0, now, None, now);
    Ok(s.(outbox := s.outbox[clientId := row]))
  }

  function Retry(s: Cache, clientId: MessageId, now: Time): Result<Cache> {
    var _ :- Need(clientId in s.outbox, NotFound);
    Ok(s.(outbox := s.outbox[clientId := s.outbox[clientId].(nextAttemptAt := now, lastError := None)]))
  }

  function Fail(s: Cache, clientId: MessageId, code: string, nextAttemptAt: Time): Result<Cache> {
    var _ :- Need(clientId in s.outbox, NotFound);
    var row := s.outbox[clientId];
    Ok(s.(outbox := s.outbox[clientId := row.(attempts := row.attempts + 1, nextAttemptAt := nextAttemptAt, lastError := Some(code))]))
  }

  function WithClientId(messages: map<MessageId, MessageRow>, clientId: MessageId): set<MessageId> {
    set id | id in messages && messages[id].clientId == clientId
  }

  function Discard(s: Cache, clientId: MessageId): Cache {
    var gone := WithClientId(s.messages, clientId);
    s.(search := s.search - gone, messages := s.messages - gone, outbox := s.outbox - {clientId})
  }

  // ----- turning encryption on -----

  function SealUser(row: UserRow, key: CacheKey): UserRow {
    row.(columns := BLANK, payload := Protect(row.payload, Some(key)))
  }

  function SealRoom(row: RoomRow, key: CacheKey): RoomRow {
    row.(name := "", payload := Protect(row.payload, Some(key)))
  }

  function SealUsers(users: map<UserId, UserRow>, key: CacheKey): map<UserId, UserRow> {
    map u | u in users :: SealUser(users[u], key)
  }

  function SealRooms(rooms: map<ConversationId, RoomRow>, key: CacheKey): map<ConversationId, RoomRow> {
    map c | c in rooms :: SealRoom(rooms[c], key)
  }

  function SealMessages(messages: map<MessageId, MessageRow>, key: CacheKey): map<MessageId, MessageRow> {
    map id | id in messages :: messages[id].(payload := Protect(messages[id].payload, Some(key)))
  }

  function SealDrafts(drafts: map<ConversationId, Cell<string>>, key: CacheKey): map<ConversationId, Cell<string>> {
    map c | c in drafts :: ProtectText(drafts[c], Some(key))
  }

  function SealOutbox(outbox: map<MessageId, OutboxRow>, key: CacheKey): map<MessageId, OutboxRow> {
    map id | id in outbox :: outbox[id].(payload := Protect(outbox[id].payload, Some(key)))
  }

  function SealBootstrap(bootstrap: Option<Cell<Snapshot>>, key: CacheKey): Option<Cell<Snapshot>> {
    if bootstrap.Some? then Some(Protect(bootstrap.value, Some(key))) else None
  }

  function Encrypted(s: Cache, key: CacheKey): Cache {
    Cache(SealUsers(s.users, key), SealRooms(s.rooms, key), SealMessages(s.messages, key), map[], SealDrafts(s.drafts, key),
          SealOutbox(s.outbox, key), SealBootstrap(s.bootstrap, key), Some(key))
  }

  // ----- turning encryption off -----

  function OpenUser(row: UserRow): UserRow {
    row.(columns := ColumnsOf(row.payload.value), presence := row.payload.value.presence, payload := Clear(row.payload.value))
  }

  function OpenRoom(row: RoomRow): RoomRow {
    row.(name := row.payload.value.name, payload := Clear(row.payload.value))
  }

  function OpenMessage(row: MessageRow): MessageRow {
    row.(payload := Clear(row.payload.value))
  }

  function OpenUsers(users: map<UserId, UserRow>): map<UserId, UserRow> {
    map u | u in users :: OpenUser(users[u])
  }

  function OpenRooms(rooms: map<ConversationId, RoomRow>): map<ConversationId, RoomRow> {
    map c | c in rooms :: OpenRoom(rooms[c])
  }

  function OpenMessages(messages: map<MessageId, MessageRow>): map<MessageId, MessageRow> {
    map id | id in messages :: OpenMessage(messages[id])
  }

  function OpenDrafts(drafts: map<ConversationId, Cell<string>>): map<ConversationId, Cell<string>> {
    map c | c in drafts :: Clear(drafts[c].value)
  }

  function OpenOutboxRow(row: OutboxRow): OutboxRow {
    row.(payload := Clear(row.payload.value))
  }

  function OpenOutbox(outbox: map<MessageId, OutboxRow>): map<MessageId, OutboxRow> {
    map id | id in outbox :: OpenOutboxRow(outbox[id])
  }

  function OpenBootstrap(bootstrap: Option<Cell<Snapshot>>): Option<Cell<Snapshot>> {
    if bootstrap.Some? then Some(Clear(bootstrap.value.value)) else None
  }

  /** One index entry for each message whose payload is a text. */
  function EntryOf(m: Message): SearchEntry
    requires m.content.Text?
  {
    SearchEntry(m.conversation, m.sender, m.content.text)
  }

  function IndexOf(messages: map<MessageId, MessageRow>): map<MessageId, seq<SearchEntry>> {
    map id | id in messages && messages[id].payload.value.content.Text? :: [EntryOf(messages[id].payload.value)]
  }

  /** The cache as it would be if it had never been encrypted: payloads in the clear, columns and index rebuilt. */
  function Opened(s: Cache): Cache {
    Cache(OpenUsers(s.users), OpenRooms(s.rooms), OpenMessages(s.messages), IndexOf(s.messages), OpenDrafts(s.drafts),
          OpenOutbox(s.outbox), OpenBootstrap(s.bootstrap), None)
  }

  predicate AllOpen(s: Cache, key: Option<CacheKey>) {
    && (forall u :: u in s.users ==> Unprotect(s.users[u].payload, key).Ok?)
    && (forall c :: c in s.rooms ==> Unprotect(s.rooms[c].payload, key).Ok?)
    && (forall id :: id in s.messages ==> Unprotect(s.messages[id].payload, key).Ok?)
    && (forall c :: c in s.drafts ==> UnprotectText(s.drafts[c], key).Ok?)
    && (forall id :: id in s.outbox ==> Unprotect(s.outbox[id].payload, key).Ok?)
    && (s.bootstrap.Some? ==> Unprotect(s.bootstrap.value, key).Ok?)
  }

  /** One value that does not open aborts the whole migration. */
  function Decrypted(s: Cache): Result<Cache> {
    var _ :- Need(AllOpen(s, s.key), Storage);
    Ok(Opened(s))
  }

  function Toggle(s: Cache, enabled: bool, newKey: CacheKey): Result<Cache> {
    if s.key.Some? == enabled then Ok(s)
    else if enabled then Ok(Encrypted(s, newKey))
    else Decrypted(s)
  }

  // ----- the whole cache -----

  function Apply(s: Cache, op: Op): Result<Cache> {
    match op
    case CacheBootstrap(snapshot) => Ok(CacheSnapshot(s, snapshot))
    case CacheMessages(messages) => CacheAll(s, messages)
    case SaveDraft(c, body) => StoreDraft(s, c, body)
    case Enqueue(clientId, c, payload, now) => Queue(s, clientId, c, payload, now)
    case Acknowledge(clientId) => Ok(s.(outbox := s.outbox - {clientId}))
    case RetryNow(clientId, now) => Retry(s, clientId, now)
    case RecordFailure(clientId, code, nextAttemptAt) => Fail(s, clientId, code, nextAttemptAt)
    case DiscardPending(clientId) => Ok(Discard(s, clientId))
    case ClearAccount => Ok(NEW_CACHE.(key := s.key))
    case SetEncryption(enabled, newKey) => Toggle(s, enabled, newKey)
  }

  /** One committed or rolled-back transaction. */
  function Step(s: Cache, op: Op): Cache {
    var r := Apply(s, op);
    if r.Ok? then r.value else s
  }

  // ----- what the client reads back -----

  datatype Loaded = Loaded(sequence: Option<nat>, createdAt: Time, message: Message)

  function LoadedRows(messages: map<MessageId, MessageRow>, ids: set<MessageId>): map<MessageId, Loaded>
    requires ids <= messages.Keys
  {
    map id | id in ids :: Loaded(messages[id].sequence, messages[id].createdAt, messages[id].payload.value)
  }

  predicate AllReadable(messages: map<MessageId, MessageRow>, ids: set<MessageId>, key: Option<CacheKey>)
    requires ids <= messages.Keys
  {
    forall id :: id in ids ==> Unprotect(messages[id].payload, key).Ok?
  }

  function InConversation(messages: map<MessageId, MessageRow>, c: ConversationId): set<MessageId> {
    set id | id in messages && messages[id].conversation == c
  }

  /** The messages of a conversation with the columns that order them. */
  function LoadMessages(s: Cache, c: ConversationId): Result<map<MessageId, Loaded>> {
    var ids := InConversation(s.messages, c);
    var _ :- Need(AllReadable(s.messages, ids, s.key), Storage);
    Ok(LoadedRows(s.messages, ids))
  }

  function Searchable(messages: map<MessageId, MessageRow>): set<MessageId> {
    set id | id in messages && (messages[id].kind.TextKind? || messages[id].kind.SystemKind?)
  }

  function Matching(messages: map<MessageId, MessageRow>, matches: Content -> bool): set<MessageId> {
    set id | id in Searchable(messages)
             && (messages[id].payload.value.content.Text? || messages[id].payload.value.content.System?)
             && matches(messages[id].payload.value.content)
  }

  /** Search reads the payloads of the text and system rows, not the index. */
  function SearchMessages(s: Cache, matches: Content -> bool): Result<map<MessageId, Loaded>> {
    var _ :- Need(AllReadable(s.messages, Searchable(s.messages), s.key), Storage);
    Ok(LoadedRows(s.messages, Matching(s.messages, matches)))
  }

  function LoadDraft(s: Cache, c: ConversationId): Result<string> {
    if c in s.drafts then UnprotectText(s.drafts[c], s.key) else Ok("")
  }

  datatype OutboxItem = OutboxItem(conversation: ConversationId, payload: Json, attempts: nat, nextAttemptAt: Time,
                                   lastError: Option<string>, createdAt: Time)

  function ItemOf(row: OutboxRow): OutboxItem {
    OutboxItem(row.conversation, row.payload.value, row.attempts, row.nextAttemptAt, row.lastError, row.createdAt)
  }

  function DueItems(outbox: map<MessageId, OutboxRow>, now: Time): map<MessageId, OutboxItem> {
    map id | id in outbox && outbox[id].nextAttemptAt <= now :: ItemOf(outbox[id])
  }

  function ReadyOutbox(s: Cache, now: Time): Result<map<MessageId, OutboxItem>> {
    var _ :- Need(forall id :: id in s.outbox && s.outbox[id].nextAttemptAt <= now ==> Unprotect(s.outbox[id].payload, s.key).Ok?,
                  Storage);
    Ok(DueItems(s.outbox, now))
  }

  function LoadBootstrap(s: Cache): Result<Option<Snapshot>> {
    if s.bootstrap.None? then Ok(None)
    else
      var snapshot :- Unprotect(s.bootstrap.value, s.key);
      Ok(Some(snapshot))
  }
}
