/** The encrypted cache refines the plain one: turning encryption on and off, at any moments of any run of writes,
    changes nothing that can be read back. */
module CacheTheorems {
  import opened Domain
  import opened LocalCache

  // ----- the invariant -----

  /** Payloads are clear without a key and sealed under the key with one. */
  predicate IsUnder<T>(cell: Cell<T>, key: Option<CacheKey>) {
    if key.None? then cell.Clear? else cell.Sealed? && cell.key == key.value
  }

  /** A draft that looks sealed always stays as it was written. */
  predicate IsTextUnder(cell: Cell<string>, key: Option<CacheKey>) {
    if IsMarked(cell.value) then cell.Clear? else IsUnder(cell, key)
  }

  predicate UserRowInv(row: UserRow, key: Option<CacheKey>) {
    && IsUnder(row.payload, key) && row.presence == row.payload.value.presence
    && row.columns == if key.Some? then BLANK else ColumnsOf(row.payload.value)
  }

  predicate RoomRowInv(row: RoomRow, key: Option<CacheKey>) {
    IsUnder(row.payload, key) && row.name == if key.Some? then "" else row.payload.value.name
  }

  /** A row carries the identity of the message in it. */
  predicate MessageRowInv(id: MessageId, row: MessageRow, key: Option<CacheKey>) {
    && IsUnder(row.payload, key) && row.payload.value.id == id
    && row.clientId == row.payload.value.clientId && row.sender == row.payload.value.sender
    && row.conversation == row.payload.value.conversation
  }

  ghost predicate MessagesInv(messages: map<MessageId, MessageRow>, key: Option<CacheKey>) {
    forall id :: id in messages ==> MessageRowInv(id, messages[id], key)
  }

  /** At most one row per sender and client id. */
  ghost predicate OnePerKey(messages: map<MessageId, MessageRow>) {
    forall i, j :: i in messages && j in messages && SharesKey(messages[i], messages[j].sender, messages[j].clientId) ==> i == j
  }

  /** The index has exactly one entry for each text when encryption is off, and none when it is on. */
  ghost predicate SearchInv(s: Cache) {
    s.search == if s.key.Some? then map[] else IndexOf(s.messages)
  }

  ghost predicate Inv(s: Cache) {
    && (forall u :: u in s.users ==> UserRowInv(s.users[u], s.key))
    && (forall c :: c in s.rooms ==> RoomRowInv(s.rooms[c], s.key))
    && MessagesInv(s.messages, s.key) && OnePerKey(s.messages) && SearchInv(s)
    && (forall c :: c in s.drafts ==> IsTextUnder(s.drafts[c], s.key))
    && (forall id :: id in s.outbox ==> IsUnder(s.outbox[id].payload, s.key))
    && (s.bootstrap.Some? ==> IsUnder(s.bootstrap.value, s.key))
  }

  // ----- what the cache may assume of messages -----

  /** A message id fixes its sender, client id and conversation. */
  predicate FixesIdentity(messages: map<MessageId, MessageRow>, m: Message) {
    m.id in messages ==> SharesKey(messages[m.id], m.sender, m.clientId) && messages[m.id].conversation == m.conversation
  }

  predicate AllFixIdentity(s: Cache, messages: seq<Message>)
    decreases |messages|
  {
    messages != [] ==>
      && FixesIdentity(s.messages, messages[0])
      && var next := CacheMessage(s, messages[0]); next.Ok? ==> AllFixIdentity(next.value, messages[1..])
  }

  predicate Assumes(s: Cache, op: Op) {
    op.CacheMessages? ==> AllFixIdentity(s, op.messages)
  }

  // ----- messages -----

  lemma CacheMessageKeeps(s: Cache, m: Message)
    requires Inv(s) && FixesIdentity(s.messages, m) && CacheMessage(s, m).Ok?
    ensures Inv(CacheMessage(s, m).value)
  {
    var t := CacheMessage(s, m).value;
    RowsKeep(s.messages, m, s.key);
    if s.key.None? {
      IndexFollows(s.messages, m);
    } else {
      assert Indexed(s.search - Stale(s.messages, m), m, s.key) == map[];
    }
  }

  /** The table after one message. */
  function Rows(messages: map<MessageId, MessageRow>, m: Message, key: Option<CacheKey>): map<MessageId, MessageRow> {
    var kept := messages - Stale(messages, m);
    kept[m.id := RowFor(kept, m, key)]
  }

  lemma RowsKeep(messages: map<MessageId, MessageRow>, m: Message, key: Option<CacheKey>)
    requires MessagesInv(messages, key) && OnePerKey(messages) && FixesIdentity(messages, m)
    ensures MessagesInv(Rows(messages, m, key), key) && OnePerKey(Rows(messages, m, key))
  {
  }

  /** Deleting the stale entries and re-indexing one message gives the index of the new table. */
  lemma IndexFollows(messages: map<MessageId, MessageRow>, m: Message)
    requires FixesIdentity(messages, m)
    ensures Indexed(IndexOf(messages) - Stale(messages, m), m, None) == IndexOf(Rows(messages, m, None))
  {
  }

  lemma RowsOpen(messages: map<MessageId, MessageRow>, m: Message, key: Option<CacheKey>)
    ensures OpenMessages(Rows(messages, m, key)) == Rows(OpenMessages(messages), m, None)
    ensures Stale(OpenMessages(messages), m) == Stale(messages, m)
  {
    assert OpenMessages(messages - Stale(messages, m)) == OpenMessages(messages) - Stale(messages, m);
  }

  lemma FitsWhenOpen(messages: map<MessageId, MessageRow>, rooms: set<ConversationId>, id: MessageId, row: MessageRow)
    ensures FitsIn(OpenMessages(messages), rooms, id, OpenMessage(row)) <==> FitsIn(messages, rooms, id, row)
  {
    var opn := OpenMessages(messages);
    forall other | other in messages ensures TakesSequence(OpenMessage(row), opn[other]) <==> TakesSequence(row, messages[other]) {
    }
  }

  // ----- the refinement -----

  /** An outcome on the cache, and the same operation's outcome on the cache as if it had never been encrypted. */
  ghost predicate Refines(r: Result<Cache>, plain: Result<Cache>) {
    match r
    case Ok(t) => Inv(t) && plain == Ok(Opened(t))
    case Err(e) => plain == Err(e)
  }

  lemma OpenedIsGood(s: Cache)
    requires Inv(s)
    ensures Inv(Opened(s)) && Opened(Opened(s)) == Opened(s) && (s.key.None? ==> Opened(s) == s)
  {
    OpenedKeeps(s);
    OpenedIsItself(Opened(s));
    if s.key.None? {
      OpenedIsItself(s);
    }
  }

  lemma OpenedKeeps(s: Cache)
    requires Inv(s)
    ensures Inv(Opened(s))
  {
    assert IndexOf(OpenMessages(s.messages)) == IndexOf(s.messages);
    forall id | id in s.messages ensures MessageRowInv(id, OpenMessage(s.messages[id]), None) {
      assert MessageRowInv(id, s.messages[id], s.key);
    }
  }

  lemma OpenedIsItself(s: Cache)
    requires Inv(s) && s.key.None?
    ensures Opened(s) == s
  {
    forall u | u in s.users ensures OpenUser(s.users[u]) == s.users[u] {
      assert UserRowInv(s.users[u], s.key);
    }
    forall c | c in s.rooms ensures OpenRoom(s.rooms[c]) == s.rooms[c] {
      assert RoomRowInv(s.rooms[c], s.key);
    }
    forall id | id in s.messages ensures OpenMessage(s.messages[id]) == s.messages[id] {
      assert MessageRowInv(id, s.messages[id], s.key);
    }
    assert OpenUsers(s.users) == s.users;
    assert OpenRooms(s.rooms) == s.rooms;
    assert OpenMessages(s.messages) == s.messages;
    assert OpenDrafts(s.drafts) == s.drafts;
    assert OpenOutbox(s.outbox) == s.outbox;
  }

  lemma CacheMessageRefines(s: Cache, m: Message)
    requires Inv(s) && FixesIdentity(s.messages, m)
    ensures Refines(CacheMessage(s, m), CacheMessage(Opened(s), m))
  {
    var kept := s.messages - Stale(s.messages, m);
    RowsOpen(s.messages, m, s.key);
    assert OpenMessages(s.messages) - Stale(s.messages, m) == OpenMessages(kept);
    assert OpenMessage(RowFor(kept, m, s.key)) == RowFor(OpenMessages(kept), m, None);
    FitsWhenOpen(kept, s.rooms.Keys, m.id, RowFor(kept, m, s.key));
    assert OpenRooms(s.rooms).Keys == s.rooms.Keys;
    if CacheMessage(s, m).Ok? {
      CacheMessageKeeps(s, m);
      OpenedIndexFollows(s, m);
    }
  }

  lemma OpenedIndexFollows(s: Cache, m: Message)
    requires FixesIdentity(s.messages, m)
    ensures Indexed(IndexOf(s.messages) - Stale(s.messages, m), m, None) == IndexOf(Rows(s.messages, m, s.key))
  {
  }

  lemma {:induction false} CacheAllRefines(s: Cache, messages: seq<Message>)
    requires Inv(s) && AllFixIdentity(s, messages)
    ensures Refines(CacheAll(s, messages), CacheAll(Opened(s), messages))
    decreases |messages|
  {
    if messages != [] {
      CacheMessageRefines(s, messages[0]);
      if CacheMessage(s, messages[0]).Ok? {
        CacheAllRefines(CacheMessage(s, messages[0]).value, messages[1..]);
      }
    }
  }

  lemma {:induction false} ProfilesRefine(users: map<UserId, UserRow>, profiles: seq<Profile>, key: Option<CacheKey>)
    requires forall u :: u in users ==> UserRowInv(users[u], key)
    ensures var t := CacheProfiles(users, profiles, key);
            && (forall u :: u in t ==> UserRowInv(t[u], key))
            && OpenUsers(t) == CacheProfiles(OpenUsers(users), profiles, None)
  {
    if profiles != [] {
      var n := |profiles| - 1;
      ProfilesRefine(users, profiles[..n], key);
      var before := CacheProfiles(users, profiles[..n], key);
      var row := UserRowOf(profiles[n], key);
      assert OpenUsers(before[profiles[n].id := row]) == OpenUsers(before)[profiles[n].id := OpenUser(row)];
    }
  }

  lemma {:induction false} RoomsRefine(rows: map<ConversationId, RoomRow>, rooms: seq<Room>, key: Option<CacheKey>)
    requires forall c :: c in rows ==> RoomRowInv(rows[c], key)
    ensures var t := CacheRooms(rows, rooms, key);
            && (forall c :: c in t ==> RoomRowInv(t[c], key))
            && OpenRooms(t) == CacheRooms(OpenRooms(rows), rooms, None)
  {
    if rooms != [] {
      var n := |rooms| - 1;
      RoomsRefine(rows, rooms[..n], key);
      var before := CacheRooms(rows, rooms[..n], key);
      var row := RoomRowOf(rooms[n], key);
      assert OpenRooms(before[rooms[n].id := row]) == OpenRooms(before)[rooms[n].id := OpenRoom(row)];
    }
  }

  lemma SnapshotRefines(s: Cache, snapshot: Snapshot)
    requires Inv(s)
    ensures Refines(Ok(CacheSnapshot(s, snapshot)), Ok(CacheSnapshot(Opened(s), snapshot)))
  {
    ProfilesRefine(s.users, [snapshot.profile] + snapshot.friends, s.key);
    RoomsRefine(s.rooms, snapshot.rooms, s.key);
  }

  lemma DraftRefines(s: Cache, c: ConversationId, body: string)
    requires Inv(s)
    ensures Refines(StoreDraft(s, c, body), StoreDraft(Opened(s), c, body))
  {
    DraftsOpen(s.drafts, c, ProtectText(Clear(body), s.key));
  }

  lemma DraftsOpen(drafts: map<ConversationId, Cell<string>>, c: ConversationId, cell: Cell<string>)
    ensures OpenDrafts(drafts[c := cell]) == OpenDrafts(drafts)[c := Clear(cell.value)]
  {
  }

  /** Any change of the outbox that opens to the same change. */
  lemma OutboxRefines(s: Cache, id: MessageId, row: OutboxRow)
    requires Inv(s) && IsUnder(row.payload, s.key)
    ensures Refines(Ok(s.(outbox := s.outbox[id := row])),
                    Ok(Opened(s).(outbox := Opened(s).outbox[id := OpenOutboxRow(row)])))
  {
    assert OpenOutbox(s.outbox[id := row]) == OpenOutbox(s.outbox)[id := OpenOutboxRow(row)];
  }

  lemma QueueRefines(s: Cache, clientId: MessageId, c: ConversationId, payload: Json, now: Time)
    requires Inv(s)
    ensures Refines(Queue(s, clientId, c, payload, now), Queue(Opened(s), clientId, c, payload, now))
  {
    if Queue(s, clientId, c, payload, now).Ok? {
      OutboxRefines(s, clientId, Queue(s, clientId, c, payload, now).value.outbox[clientId]);
    }
  }

  lemma RescheduleRefines(s: Cache, op: Op)
    requires Inv(s) && (op.RetryNow? || op.RecordFailure?)
    ensures Refines(Apply(s, op), Apply(Opened(s), op))
  {
    if op.clientId in s.outbox {
      OutboxRefines(s, op.clientId, Apply(s, op).value.outbox[op.clientId]);
    }
  }

  lemma AcknowledgeRefines(s: Cache, clientId: MessageId)
    requires Inv(s)
    ensures Refines(Apply(s, Acknowledge(clientId)), Apply(Opened(s), Acknowledge(clientId)))
  {
    assert OpenOutbox(s.outbox - {clientId}) == OpenOutbox(s.outbox) - {clientId};
  }

  lemma DiscardRefines(s: Cache, clientId: MessageId)
    requires Inv(s)
    ensures Refines(Ok(Discard(s, clientId)), Ok(Discard(Opened(s), clientId)))
  {
    var gone := WithClientId(s.messages, clientId);
    RemovalOpens(s.messages, gone);
    assert WithClientId(OpenMessages(s.messages), clientId) == gone;
    assert OpenOutbox(s.outbox - {clientId}) == OpenOutbox(s.outbox) - {clientId};
    DiscardKeeps(s, clientId);
  }

  lemma RemovalOpens(messages: map<MessageId, MessageRow>, gone: set<MessageId>)
    ensures OpenMessages(messages - gone) == OpenMessages(messages) - gone
    ensures IndexOf(messages - gone) == IndexOf(messages) - gone
  {
  }

  lemma DiscardKeeps(s: Cache, clientId: MessageId)
    requires Inv(s)
    ensures Inv(Discard(s, clientId))
  {
    var gone := WithClientId(s.messages, clientId);
    RemovalOpens(s.messages, gone);
    if s.key.Some? {
      assert s.search - gone == map[];
    }
  }

  /** Every write does to an encrypted cache what it does to the plain one. */
  lemma WriteRefines(s: Cache, op: Op)
    requires Inv(s) && Assumes(s, op) && !op.SetEncryption?
    ensures Refines(Apply(s, op), Apply(Opened(s), op))
  {
    match op {
      case CacheBootstrap(snapshot) => SnapshotRefines(s, snapshot);
      case CacheMessages(messages) => CacheAllRefines(s, messages);
      case SaveDraft(c, body) => DraftRefines(s, c, body);
      case Enqueue(clientId, c, payload, now) => QueueRefines(s, clientId, c, payload, now);
      case Acknowledge(clientId) => AcknowledgeRefines(s, clientId);
      case RetryNow(_, _) => RescheduleRefines(s, op);
      case RecordFailure(_, _, _) => RescheduleRefines(s, op);
      case DiscardPending(clientId) => DiscardRefines(s, clientId);
      case ClearAccount => ClearRefines(s);
    }
  }

  lemma ClearRefines(s: Cache)
    requires Inv(s)
    ensures Refines(Apply(s, ClearAccount), Apply(Opened(s), ClearAccount))
  {
    assert IndexOf(map[]) == map[];
    assert OpenUsers(map[]) == map[] && OpenRooms(map[]) == map[] && OpenMessages(map[]) == map[];
    assert OpenDrafts(map[]) == map[] && OpenOutbox(map[]) == map[];
  }

  // ----- the migrations -----

  lemma EncryptionOpens(s: Cache, key: CacheKey)
    requires Inv(s) && s.key.None?
    ensures Inv(Encrypted(s, key)) && Opened(Encrypted(s, key)) == Opened(s)
  {
    SealingTables(s, key);
    SealedTablesOpen(s, key);
  }

  lemma SealedTablesOpen(s: Cache, key: CacheKey)
    ensures Opened(Encrypted(s, key)) == Opened(s)
  {
    SealedMessagesOpen(s.messages, key);
    SealedRowsOpen(s.users, s.rooms, key);
    SealedTextsOpen(s.drafts, s.outbox, key);
  }

  lemma SealedRowsOpen(users: map<UserId, UserRow>, rooms: map<ConversationId, RoomRow>, key: CacheKey)
    ensures OpenUsers(SealUsers(users, key)) == OpenUsers(users)
    ensures OpenRooms(SealRooms(rooms, key)) == OpenRooms(rooms)
  {
  }

  lemma SealedTextsOpen(drafts: map<ConversationId, Cell<string>>, outbox: map<MessageId, OutboxRow>, key: CacheKey)
    ensures OpenDrafts(SealDrafts(drafts, key)) == OpenDrafts(drafts)
    ensures OpenOutbox(SealOutbox(outbox, key)) == OpenOutbox(outbox)
  {
  }

  lemma SealedMessagesOpen(messages: map<MessageId, MessageRow>, key: CacheKey)
    ensures OpenMessages(SealMessages(messages, key)) == OpenMessages(messages)
    ensures IndexOf(SealMessages(messages, key)) == IndexOf(messages)
  {
  }

  lemma SealingTables(s: Cache, key: CacheKey)
    requires Inv(s) && s.key.None?
    ensures Inv(Encrypted(s, key))
  {
    forall u | u in s.users ensures UserRowInv(SealUser(s.users[u], key), Some(key)) {
      assert UserRowInv(s.users[u], s.key);
    }
    forall c | c in s.rooms ensures RoomRowInv(SealRoom(s.rooms[c], key), Some(key)) {
      assert RoomRowInv(s.rooms[c], s.key);
    }
  }

  /** Turning encryption off succeeds exactly when no draft begins with the marker of sealed values. */
  lemma DecryptionSucceedsExactly(s: Cache)
    requires Inv(s)
    ensures Decrypted(s).Ok? <==> forall c :: c in s.drafts ==> !IsMarked(s.drafts[c].value)
  {
    forall u | u in s.users ensures Unprotect(s.users[u].payload, s.key).Ok? {
      assert UserRowInv(s.users[u], s.key);
    }
    forall c | c in s.rooms ensures Unprotect(s.rooms[c].payload, s.key).Ok? {
      assert RoomRowInv(s.rooms[c], s.key);
    }
    forall c | c in s.drafts ensures UnprotectText(s.drafts[c], s.key).Ok? <==> !IsMarked(s.drafts[c].value) {
      assert IsTextUnder(s.drafts[c], s.key);
    }
  }

  /** Whether it succeeds or not, a toggle leaves the cache with the same opened form. */
  lemma ToggleOpens(s: Cache, enabled: bool, newKey: CacheKey)
    requires Inv(s)
    ensures var t := Step(s, SetEncryption(enabled, newKey)); Inv(t) && Opened(t) == Opened(s)
  {
    if s.key.Some? != enabled {
      if enabled {
        EncryptionOpens(s, newKey);
      } else {
        OpenedIsGood(s);
      }
    }
  }

  // ----- runs -----

  ghost predicate Possible(s: Cache, ops: seq<Op>)
    decreases |ops|
  {
    ops == [] || (Assumes(s, ops[0]) && Possible(Step(s, ops[0]), ops[1..]))
  }

  function Run(s: Cache, ops: seq<Op>): Cache
    decreases |ops|
  {
    if ops == [] then s else Run(Step(s, ops[0]), ops[1..])
  }

  /** The same run with every change of encryption left out. */
  function Writes(ops: seq<Op>): seq<Op> {
    if ops == [] then []
    else if ops[0].SetEncryption? then Writes(ops[1..])
    else [ops[0]] + Writes(ops[1..])
  }

  lemma {:induction false} RunRefines(s: Cache, ops: seq<Op>)
    requires Inv(s) && Possible(s, ops)
    ensures Inv(Run(s, ops)) && Opened(Run(s, ops)) == Run(Opened(s), Writes(ops))
    decreases |ops|
  {
    if ops != [] {
      var op := ops[0];
      if op.SetEncryption? {
        ToggleOpens(s, op.enabled, op.newKey);
      } else {
        WriteRefines(s, op);
        assert Writes(ops)[0] == op && Writes(ops)[1..] == Writes(ops[1..]);
        assert Step(Opened(s), op) == Opened(Step(s, op));
      }
      RunRefines(Step(s, op), ops[1..]);
    }
  }

  // ----- what is read back -----

  /** Every loader reads the same from a cache and from its opened form. */
  lemma LoadersSeeThrough(s: Cache, c: ConversationId, now: Time, matches: Content -> bool)
    requires Inv(s)
    ensures LoadBootstrap(s) == LoadBootstrap(Opened(s))
    ensures LoadMessages(s, c) == LoadMessages(Opened(s), c)
    ensures SearchMessages(s, matches) == SearchMessages(Opened(s), matches)
    ensures LoadDraft(s, c) == LoadDraft(Opened(s), c)
    ensures ReadyOutbox(s, now) == ReadyOutbox(Opened(s), now)
  {
    MessagesSeeThrough(s, c);
    SearchSeesThrough(s, matches);
    OutboxSeesThrough(s, now);
    assert c in s.drafts ==> IsTextUnder(s.drafts[c], s.key);
  }

  lemma MessagesSeeThrough(s: Cache, c: ConversationId)
    requires Inv(s)
    ensures LoadMessages(s, c) == LoadMessages(Opened(s), c)
  {
    assert InConversation(OpenMessages(s.messages), c) == InConversation(s.messages, c);
    RowsSeeThrough(s.messages, InConversation(s.messages, c), s.key);
  }

  lemma RowsSeeThrough(messages: map<MessageId, MessageRow>, ids: set<MessageId>, key: Option<CacheKey>)
    requires MessagesInv(messages, key) && ids <= messages.Keys
    ensures AllReadable(messages, ids, key) && AllReadable(OpenMessages(messages), ids, None)
    ensures LoadedRows(OpenMessages(messages), ids) == LoadedRows(messages, ids)
  {
    forall id | id in ids ensures Unprotect(messages[id].payload, key).Ok? {
      assert MessageRowInv(id, messages[id], key);
    }
  }

  lemma SearchSeesThrough(s: Cache, matches: Content -> bool)
    requires Inv(s)
    ensures SearchMessages(s, matches) == SearchMessages(Opened(s), matches)
  {
    assert Searchable(OpenMessages(s.messages)) == Searchable(s.messages);
    assert Matching(OpenMessages(s.messages), matches) == Matching(s.messages, matches);
    RowsSeeThrough(s.messages, Searchable(s.messages), s.key);
    RowsSeeThrough(s.messages, Matching(s.messages, matches), s.key);
  }

  lemma OutboxSeesThrough(s: Cache, now: Time)
    requires Inv(s)
    ensures ReadyOutbox(s, now) == ReadyOutbox(Opened(s), now)
  {
    assert DueItems(OpenOutbox(s.outbox), now) == DueItems(s.outbox, now);
  }

  /** Turning encryption on and off any number of times, between any writes, never changes what any loader returns:
      it is what the same writes leave in a cache that was never encrypted. */
  lemma EncryptionIsInvisible(ops: seq<Op>, c: ConversationId, now: Time, matches: Content -> bool)
    requires Possible(NEW_CACHE, ops)
    ensures var s := Run(NEW_CACHE, ops);
            var plain := Run(NEW_CACHE, Writes(ops));
            && plain.key.None? && Opened(s) == plain
            && LoadBootstrap(s) == LoadBootstrap(plain) && LoadMessages(s, c) == LoadMessages(plain, c)
            && SearchMessages(s, matches) == SearchMessages(plain, matches)
            && LoadDraft(s, c) == LoadDraft(plain, c) && ReadyOutbox(s, now) == ReadyOutbox(plain, now)
  {
    NewCacheIsGood();
    RunRefines(NEW_CACHE, ops);
    LoadersSeeThrough(Run(NEW_CACHE, ops), c, now, matches);
  }

  lemma NewCacheIsGood()
    ensures Inv(NEW_CACHE) && Opened(NEW_CACHE) == NEW_CACHE
  {
    assert IndexOf(map[]) == map[];
    OpenedIsItself(NEW_CACHE);
  }

  /** A successful disabling leaves the very cache the writes alone would have left: every blanked column and the
      whole index are rebuilt. */
  lemma DisablingRebuildsEverything(ops: seq<Op>, newKey: CacheKey)
    requires Possible(NEW_CACHE, ops)
    requires forall c :: c in Run(NEW_CACHE, ops).drafts ==> !IsMarked(Run(NEW_CACHE, ops).drafts[c].value)
    ensures Step(Run(NEW_CACHE, ops), SetEncryption(false, newKey)) == Run(NEW_CACHE, Writes(ops))
  {
    NewCacheIsGood();
    RunRefines(NEW_CACHE, ops);
    var s := Run(NEW_CACHE, ops);
    DecryptionSucceedsExactly(s);
    if s.key.None? {
      OpenedIsItself(s);
    }
  }

  /** Cache and index agree in every reachable state. */
  lemma CacheAndIndexAgree(ops: seq<Op>, i: MessageId, j: MessageId)
    requires Possible(NEW_CACHE, ops)
    requires i in Run(NEW_CACHE, ops).messages && j in Run(NEW_CACHE, ops).messages
    ensures var s := Run(NEW_CACHE, ops);
            && (SharesKey(s.messages[i], s.messages[j].sender, s.messages[j].clientId) ==> i == j)
            && (s.key.Some? ==> s.search == map[])
            && (s.key.None? ==> s.search.Keys <= s.messages.Keys
                                && (i in s.search <==> s.messages[i].payload.value.content.Text?)
                                && (i in s.search ==> s.search[i] == [EntryOf(s.messages[i].payload.value)]))
  {
    NewCacheIsGood();
    RunRefines(NEW_CACHE, ops);
  }

  /** A draft that begins with the marker: it cannot be loaded, with encryption on or off, and it blocks disabling. */
  lemma MarkedDraftIsLost(s: Cache, c: ConversationId, body: string, newKey: CacheKey)
    requires Inv(s) && c in s.rooms && |body| <= MAX_DRAFT
    ensures var t := Step(s, SaveDraft(c, body));
            && (LoadDraft(t, c) == Ok(body) <==> !IsMarked(body)) && (LoadDraft(t, c).Err? <==> IsMarked(body))
            && (IsMarked(body) ==> t.drafts[c] == Clear(body) && Decrypted(t).Err?)
  {
    DraftRefines(s, c, body);
    DecryptionSucceedsExactly(Step(s, SaveDraft(c, body)));
  }

  // ----- what a write leaves to be read -----

  /** A cached message is loaded as it was written, other rows of its key are gone, and every other row is as it was. */
  lemma CachedMessageIsLoaded(s: Cache, m: Message, other: MessageId)
    requires Inv(s) && FixesIdentity(s.messages, m) && CacheMessage(s, m).Ok?
    ensures var t := CacheMessage(s, m).value;
            && LoadMessages(t, m.conversation).Ok? && m.id in LoadMessages(t, m.conversation).value
            && LoadMessages(t, m.conversation).value[m.id].message == m
            && LoadMessages(t, m.conversation).value[m.id].sequence == m.sequence
            && (other != m.id ==>
                  (other in t.messages <==> other in s.messages && !SharesKey(s.messages[other], m.sender, m.clientId))
                  && (other in t.messages ==> t.messages[other] == s.messages[other]))
  {
    CacheMessageKeeps(s, m);
    var t := CacheMessage(s, m).value;
    RowsSeeThrough(t.messages, InConversation(t.messages, m.conversation), t.key);
  }

  /** A queued payload comes back when it is due; queueing the same key again replaces the payload and keeps the
      conversation and the attempts. */
  lemma QueuedPayloadComesBack(s: Cache, clientId: MessageId, c: ConversationId, payload: Json, now: Time, later: Time)
    requires Inv(s) && Queue(s, clientId, c, payload, now).Ok?
    requires later >= Queue(s, clientId, c, payload, now).value.outbox[clientId].nextAttemptAt
    ensures var t := Queue(s, clientId, c, payload, now).value;
            && ReadyOutbox(t, later).Ok? && clientId in ReadyOutbox(t, later).value
            && var item := ReadyOutbox(t, later).value[clientId];
               && item.payload == payload
               && (clientId in s.outbox ==> item.conversation == s.outbox[clientId].conversation
                                            && item.attempts == s.outbox[clientId].attempts)
               && (clientId !in s.outbox ==> item.conversation == c && item.attempts == 0)
               && (forall id :: id != clientId ==> (id in t.outbox <==> id in s.outbox) && (id in s.outbox ==> t.outbox[id] == s.outbox[id]))
  {
    QueueRefines(s, clientId, c, payload, now);
  }

  /** A bootstrap is loaded as it was written. */
  lemma BootstrapIsLoaded(s: Cache, snapshot: Snapshot)
    requires Inv(s)
    ensures LoadBootstrap(CacheSnapshot(s, snapshot)) == Ok(Some(snapshot))
  {
    SnapshotRefines(s, snapshot);
  }
}
