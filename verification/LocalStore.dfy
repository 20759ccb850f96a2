/** The local cache as the object it is: rows written, resealed and deleted one at a time inside transactions. */
module LocalStore {
  import opened Domain
  import opened LocalCache
  import opened CacheTheorems
  import opened CacheSecrecy

  /** On success the tables hold the specified state; after an error the transaction rolls them back. */
  ghost predicate Reaches(r: Result<()>, after: Cache, spec: Result<Cache>) {
    match spec
    case Ok(t) => r == Ok(()) && after == t
    case Err(e) => r == Err(e)
  }

  class LocalStore {
    var users: map<UserId, UserRow>
    var rooms: map<ConversationId, RoomRow>
    var messages: map<MessageId, MessageRow>
    var search: map<MessageId, seq<SearchEntry>>
    var drafts: map<ConversationId, Cell<string>>
    var outbox: map<MessageId, OutboxRow>
    var bootstrap: Option<Cell<Snapshot>>
    var key: Option<CacheKey>

    function Value(): Cache
      reads this
    {
      Cache(users, rooms, messages, search, drafts, outbox, bootstrap, key)
    }

    constructor ()
      ensures Value() == NEW_CACHE && Inv(Value())
    {
      users, rooms, messages, search := map[], map[], map[], map[];
      drafts, outbox, bootstrap, key := map[], map[], None, None;
      new;
      NewCacheIsGood();
    }

    method Restore(s: Cache)
      modifies this
      ensures Value() == s
    {
      users, rooms, messages, search := s.users, s.rooms, s.messages, s.search;
      drafts, outbox, bootstrap, key := s.drafts, s.outbox, s.bootstrap, s.key;
    }

    // ----- writes -----

    method StoreProfiles(profiles: seq<Profile>)
      modifies this`users
      ensures users == CacheProfiles(old(users), profiles, key)
    {
      for i := 0 to |profiles|
        invariant users == CacheProfiles(old(users), profiles[..i], key)
      {
        users := users[profiles[i].id := UserRowOf(profiles[i], key)];
        assert profiles[..i + 1][..i] == profiles[..i];
      }
      assert profiles[..|profiles|] == profiles;
    }

    method StoreRooms(list: seq<Room>)
      modifies this`rooms
      ensures rooms == CacheRooms(old(rooms), list, key)
    {
      for i := 0 to |list|
        invariant rooms == CacheRooms(old(rooms), list[..i], key)
      {
        rooms := rooms[list[i].id := RoomRowOf(list[i], key)];
        assert list[..i + 1][..i] == list[..i];
      }
      assert list[..|list|] == list;
    }

    method StoreBootstrap(snapshot: Snapshot)
      modifies this
      ensures Value() == CacheSnapshot(old(Value()), snapshot)
    {
      StoreProfiles([snapshot.profile] + snapshot.friends);
      StoreRooms(snapshot.rooms);
      bootstrap := Some(Protect(Clear(snapshot), key));
    }

    /** The statements for one message: other rows of the same key go, index entries first; then the upsert; then its
        own index entry. */
    method StoreMessage(m: Message) returns (r: Result<()>)
      modifies this
      ensures Reaches(r, Value(), CacheMessage(old(Value()), m))
    {
      var stale := Stale(messages, m);
      search := search - stale;
      messages := messages - stale;
      var row := RowFor(messages, m, key);
      if !FitsIn(messages, rooms.Keys, m.id, row) {
        return Err(Storage);
      }
      messages := messages[m.id := row];
      search := search - {m.id};
      if key.None? && m.content.Text? {
        search := search[m.id := [SearchEntry(m.conversation, m.sender, m.content.text)]];
      }
      return Ok(());
    }

    method StoreMessages(list: seq<Message>) returns (r: Result<()>)
      modifies this
      ensures Reaches(r, Value(), CacheAll(old(Value()), list))
    {
      for i := 0 to |list|
        invariant CacheAll(Value(), list[i..]) == CacheAll(old(Value()), list)
      {
        assert list[i..][1..] == list[i + 1..];
        r := StoreMessage(list[i]);
        if r.Err? {
          return;
        }
      }
      return Ok(());
    }

    method StoreDraftRow(c: ConversationId, body: string) returns (r: Result<()>)
      modifies this`drafts
      ensures Reaches(r, Value(), StoreDraft(old(Value()), c, body))
    {
      if |body| > MAX_DRAFT {
        return Err(Invalid);
      }
      if c !in rooms {
        return Err(Storage);
      }
      drafts := drafts[c := ProtectText(Clear(body), key)];
      return Ok(());
    }

    method EnqueueRow(clientId: MessageId, c: ConversationId, payload: Json, now: Time) returns (r: Result<()>)
      modifies this`outbox
      ensures Reaches(r, Value(), Queue(old(Value()), clientId, c, payload, now))
    {
      var stored := Protect(Clear(payload), key);
      if clientId in outbox {
        outbox := outbox[clientId := outbox[clientId].(payload := stored)];
      } else if c in rooms {
        outbox := outbox[clientId := OutboxRow(c, stored, 0, now, None, now)];
      } else {
        return Err(Storage);
      }
      return Ok(());
    }

    method RetryRow(clientId: MessageId, now: Time) returns (r: Result<()>)
      modifies this`outbox
      ensures Reaches(r, Value(), Retry(old(Value()), clientId, now))
    {
      if clientId !in outbox {
        return Err(NotFound);
      }
      outbox := outbox[clientId := outbox[clientId].(nextAttemptAt := now, lastError := None)];
      return Ok(());
    }

    method FailRow(clientId: MessageId, code: string, nextAttemptAt: Time) returns (r: Result<()>)
      modifies this`outbox
      ensures Reaches(r, Value(), Fail(old(Value()), clientId, code, nextAttemptAt))
    {
      if clientId !in outbox {
        return Err(NotFound);
      }
      var attempts := outbox[clientId].attempts + 1;
      outbox := outbox[clientId := outbox[clientId].(attempts := attempts, nextAttemptAt := nextAttemptAt, lastError := Some(code))];
      return Ok(());
    }

    method DiscardRows(clientId: MessageId)
      modifies this`search, this`messages, this`outbox
      ensures Value() == Discard(old(Value()), clientId)
    {
      search := search - WithClientId(messages, clientId);
      messages := messages - WithClientId(messages, clientId);
      outbox := outbox - {clientId};
    }

    method ClearRows()
      modifies this
      ensures Value() == NEW_CACHE.(key := old(key))
    {
      search, outbox, drafts, messages := map[], map[], map[], map[];
      rooms, users, bootstrap := map[], map[], None;
    }

    // ----- encrypting what is there -----

    method EncryptUsers(k: CacheKey)
      modifies this`users
      ensures users == SealUsers(old(users), k)
    {
      var rest := users.Keys;
      while rest != {}
        invariant rest <= users.Keys == old(users).Keys
        invariant forall u :: u in users ==> users[u] == if u in rest then old(users)[u] else SealUser(old(users)[u], k)
      {
        var u :| u in rest;
        users := users[u := users[u].(columns := BLANK, payload := Protect(users[u].payload, Some(k)))];
        rest := rest - {u};
      }
    }

    method EncryptRooms(k: CacheKey)
      modifies this`rooms
      ensures rooms == SealRooms(old(rooms), k)
    {
      var rest := rooms.Keys;
      while rest != {}
        invariant rest <= rooms.Keys == old(rooms).Keys
        invariant forall c :: c in rooms ==> rooms[c] == if c in rest then old(rooms)[c] else SealRoom(old(rooms)[c], k)
      {
        var c :| c in rest;
        rooms := rooms[c := rooms[c].(name := "", payload := Protect(rooms[c].payload, Some(k)))];
        rest := rest - {c};
      }
    }

    method EncryptMessages(k: CacheKey)
      modifies this`messages
      ensures messages == SealMessages(old(messages), k)
    {
      var rest := messages.Keys;
      while rest != {}
        invariant rest <= messages.Keys == old(messages).Keys
        invariant forall id :: id in messages ==>
                    messages[id] == if id in rest then old(messages)[id] else SealMessages(old(messages), k)[id]
      {
        var id :| id in rest;
        messages := messages[id := messages[id].(payload := Protect(messages[id].payload, Some(k)))];
        rest := rest - {id};
      }
    }

    method EncryptDrafts(k: CacheKey)
      modifies this`drafts
      ensures drafts == SealDrafts(old(drafts), k)
    {
      var rest := drafts.Keys;
      while rest != {}
        invariant rest <= drafts.Keys == old(drafts).Keys
        invariant forall c :: c in drafts ==> drafts[c] == if c in rest then old(drafts)[c] else SealDrafts(old(drafts), k)[c]
      {
        var c :| c in rest;
        drafts := drafts[c := ProtectText(drafts[c], Some(k))];
        rest := rest - {c};
      }
    }

    method EncryptOutbox(k: CacheKey)
      modifies this`outbox
      ensures outbox == SealOutbox(old(outbox), k)
    {
      var rest := outbox.Keys;
      while rest != {}
        invariant rest <= outbox.Keys == old(outbox).Keys
        invariant forall id :: id in outbox ==> outbox[id] == if id in rest then old(outbox)[id] else SealOutbox(old(outbox), k)[id]
      {
        var id :| id in rest;
        outbox := outbox[id := outbox[id].(payload := Protect(outbox[id].payload, Some(k)))];
        rest := rest - {id};
      }
    }

    method EncryptExisting(k: CacheKey)
      modifies this
      ensures Value() == Encrypted(old(Value()), k).(key := old(key))
    {
      EncryptUsers(k);
      EncryptRooms(k);
      EncryptMessages(k);
      EncryptDrafts(k);
      EncryptOutbox(k);
      if bootstrap.Some? {
        bootstrap := Some(Protect(bootstrap.value, Some(k)));
      }
      search := map[];
    }

    // ----- decrypting what is there -----

    method DecryptUsers() returns (ok: bool)
      modifies this`users
      ensures ok <==> forall u :: u in old(users) ==> Unprotect(old(users)[u].payload, key).Ok?
      ensures ok ==> users == OpenUsers(old(users))
    {
      var rest := users.Keys;
      while rest != {}
        invariant rest <= users.Keys == old(users).Keys
        invariant forall u :: u in users ==> users[u] == if u in rest then old(users)[u] else OpenUser(old(users)[u])
        invariant forall u :: u in users && u !in rest ==> Unprotect(old(users)[u].payload, key).Ok?
      {
        var u :| u in rest;
        var payload := Unprotect(users[u].payload, key);
        if payload.Err? {
          return false;
        }
        var profile := payload.value;
        users := users[u := UserRow(ColumnsOf(profile), profile.presence, Clear(profile))];
        rest := rest - {u};
      }
      return true;
    }

    method DecryptRooms() returns (ok: bool)
      modifies this`rooms
      ensures ok <==> forall c :: c in old(rooms) ==> Unprotect(old(rooms)[c].payload, key).Ok?
      ensures ok ==> rooms == OpenRooms(old(rooms))
    {
      var rest := rooms.Keys;
      while rest != {}
        invariant rest <= rooms.Keys == old(rooms).Keys
        invariant forall c :: c in rooms ==> rooms[c] == if c in rest then old(rooms)[c] else OpenRoom(old(rooms)[c])
        invariant forall c :: c in rooms && c !in rest ==> Unprotect(old(rooms)[c].payload, key).Ok?
      {
        var c :| c in rest;
        var payload := Unprotect(rooms[c].payload, key);
        if payload.Err? {
          return false;
        }
        rooms := rooms[c := rooms[c].(name := payload.value.name, payload := Clear(payload.value))];
        rest := rest - {c};
      }
      return true;
    }

    /** Opens the message rows and puts one entry for each text into the emptied index. */
    method DecryptMessages() returns (ok: bool)
      requires MessagesInv(messages, key)
      modifies this`messages, this`search
      ensures ok <==> forall id :: id in old(messages) ==> Unprotect(old(messages)[id].payload, key).Ok?
      ensures ok ==> messages == OpenMessages(old(messages)) && search == IndexOf(old(messages))
    {
      search := map[];
      var rest := messages.Keys;
      while rest != {}
        invariant rest <= messages.Keys == old(messages).Keys
        invariant forall id :: id in messages ==> messages[id] == if id in rest then old(messages)[id] else OpenMessage(old(messages)[id])
        invariant forall id :: id in messages && id !in rest ==> Unprotect(old(messages)[id].payload, key).Ok?
        invariant forall id :: id in search <==> id in IndexOf(old(messages)) && id !in rest
        invariant forall id :: id in search ==> search[id] == IndexOf(old(messages))[id]
      {
        var id :| id in rest;
        assert MessageRowInv(id, old(messages)[id], key);
        var payload := Unprotect(messages[id].payload, key);
        if payload.Err? {
          return false;
        }
        var message := payload.value;
        messages := messages[id := messages[id].(payload := Clear(message))];
        if message.content.Text? {
          search := search[message.id := [SearchEntry(message.conversation, message.sender, message.content.text)]];
        }
        rest := rest - {id};
      }
      return true;
    }

    method DecryptDrafts() returns (ok: bool)
      modifies this`drafts
      ensures ok <==> forall c :: c in old(drafts) ==> UnprotectText(old(drafts)[c], key).Ok?
      ensures ok ==> drafts == OpenDrafts(old(drafts))
    {
      var rest := drafts.Keys;
      while rest != {}
        invariant rest <= drafts.Keys == old(drafts).Keys
        invariant forall c :: c in drafts ==> drafts[c] == if c in rest then old(drafts)[c] else Clear(old(drafts)[c].value)
        invariant forall c :: c in drafts && c !in rest ==> UnprotectText(old(drafts)[c], key).Ok?
      {
        var c :| c in rest;
        var body := UnprotectText(drafts[c], key);
        if body.Err? {
          return false;
        }
        drafts := drafts[c := Clear(body.value)];
        rest := rest - {c};
      }
      return true;
    }

    method DecryptOutbox() returns (ok: bool)
      modifies this`outbox
      ensures ok <==> forall id :: id in old(outbox) ==> Unprotect(old(outbox)[id].payload, key).Ok?
      ensures ok ==> outbox == OpenOutbox(old(outbox))
    {
      var rest := outbox.Keys;
      while rest != {}
        invariant rest <= outbox.Keys == old(outbox).Keys
        invariant forall id :: id in outbox ==> outbox[id] == if id in rest then old(outbox)[id] else OpenOutboxRow(old(outbox)[id])
        invariant forall id :: id in outbox && id !in rest ==> Unprotect(old(outbox)[id].payload, key).Ok?
      {
        var id :| id in rest;
        var payload := Unprotect(outbox[id].payload, key);
        if payload.Err? {
          return false;
        }
        outbox := outbox[id := outbox[id].(payload := Clear(payload.value))];
        rest := rest - {id};
      }
      return true;
    }

    method DecryptExisting() returns (ok: bool)
      requires MessagesInv(messages, key)
      modifies this
      ensures ok <==> AllOpen(old(Value()), old(key))
      ensures ok ==> Value() == Opened(old(Value())).(key := old(key))
    {
      ok := DecryptUsers();
      if ok {
        ok := DecryptRooms();
      }
      if ok {
        ok := DecryptMessages();
      }
      if ok {
        ok := DecryptDrafts();
      }
      if ok {
        ok := DecryptOutbox();
      }
      if ok && bootstrap.Some? {
        var snapshot := Unprotect(bootstrap.value, key);
        if snapshot.Err? {
          return false;
        }
        bootstrap := Some(Clear(snapshot.value));
      }
    }

    method Switch(enabled: bool, newKey: CacheKey) returns (r: Result<()>)
      requires MessagesInv(messages, key)
      modifies this
      ensures Reaches(r, Value(), Toggle(old(Value()), enabled, newKey))
    {
      if key.Some? == enabled {
        return Ok(());
      }
      if enabled {
        EncryptExisting(newKey);
        key := Some(newKey);
        return Ok(());
      }
      var ok := DecryptExisting();
      if !ok {
        return Err(Storage);
      }
      key := None;
      return Ok(());
    }

    /** Success means what it says: everything is sealed, or everything is open. */
    method SetEncryptionEnabled(enabled: bool, newKey: CacheKey) returns (r: Result<()>)
      requires MessagesInv(messages, key)
      modifies this
      ensures Reaches(r, Value(), Toggle(old(Value()), enabled, newKey))
      ensures Inv(old(Value())) && enabled ==> r.Ok? && IsSecret(Value(), if old(key).Some? then old(key).value else newKey)
      ensures Inv(old(Value())) && !enabled && r.Ok? ==> IsOpen(Value())
    {
      ghost var before := Value();
      r := Switch(enabled, newKey);
      if Inv(before) {
        SwitchMeansIt(before, Value(), enabled, newKey, r);
      }
    }

    // ----- transactions -----

    method Execute(op: Op) returns (r: Result<()>)
      requires MessagesInv(messages, key)
      modifies this
      ensures Reaches(r, Value(), LocalCache.Apply(old(Value()), op))
    {
      match op {
        case CacheBootstrap(snapshot) =>
          StoreBootstrap(snapshot);
          r := Ok(());
        case CacheMessages(list) => r := StoreMessages(list);
        case SaveDraft(c, body) => r := StoreDraftRow(c, body);
        case Enqueue(clientId, c, payload, now) => r := EnqueueRow(clientId, c, payload, now);
        case Acknowledge(clientId) =>
          outbox := outbox - {clientId};
          r := Ok(());
        case RetryNow(clientId, now) => r := RetryRow(clientId, now);
        case RecordFailure(clientId, code, nextAttemptAt) => r := FailRow(clientId, code, nextAttemptAt);
        case DiscardPending(clientId) =>
          DiscardRows(clientId);
          r := Ok(());
        case ClearAccount =>
          ClearRows();
          r := Ok(());
        case SetEncryption(enabled, newKey) => r := SetEncryptionEnabled(enabled, newKey);
      }
    }

    /** Runs one operation as a transaction: all of it, or nothing. */
    method Transact(op: Op) returns (r: Result<()>)
      requires Inv(Value()) && Assumes(Value(), op)
      modifies this
      ensures Inv(Value()) && Value() == Step(old(Value()), op)
      ensures r.Ok? <==> LocalCache.Apply(old(Value()), op).Ok?
    {
      var previous := Value();
      r := Execute(op);
      if r.Err? {
        Restore(previous);
      }
      StepKeeps(previous, op);
    }
  }

  lemma SwitchMeansIt(before: Cache, after: Cache, enabled: bool, newKey: CacheKey, r: Result<()>)
    requires Inv(before) && Reaches(r, after, Toggle(before, enabled, newKey))
    ensures enabled ==> r.Ok? && IsSecret(after, if before.key.Some? then before.key.value else newKey)
    ensures !enabled && r.Ok? ==> IsOpen(after)
  {
    assert LocalCache.Apply(before, SetEncryption(enabled, newKey)) == Toggle(before, enabled, newKey);
    if enabled {
      EnablingSealsEverything(before, newKey);
    } else {
      DisablingOpensEverything(before, newKey);
    }
  }

  lemma StepKeeps(s: Cache, op: Op)
    requires Inv(s) && Assumes(s, op)
    ensures Inv(Step(s, op))
  {
    if op.SetEncryption? {
      ToggleOpens(s, op.enabled, op.newKey);
    } else {
      WriteRefines(s, op);
    }
  }
}
