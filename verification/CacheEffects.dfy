/** What each write leaves in the rows of the cache, and what each loader reads from them. */
module CacheEffects {
  import opened Domain
  import opened LocalCache
  import opened CacheTheorems

  // ----- messages -----

  /** A message is cached unless its conversation is unknown or another one holds its place: rows of its own key do not count,
      they make way. */
  lemma CachingIsAllowedExactly(s: Cache, m: Message)
    requires Inv(s) && FixesIdentity(s.messages, m)
    ensures CacheMessage(s, m).Ok? <==>
              && (m.id in s.messages || m.conversation in s.rooms)
              && forall other :: other in s.messages && other != m.id && !SharesKey(s.messages[other], m.sender, m.clientId) ==>
                   !(m.sequence.Some? && s.messages[other].sequence == m.sequence && s.messages[other].conversation == m.conversation)
    ensures CacheMessage(s, m).Err? ==> CacheMessage(s, m).error == Storage
  {
    var kept := s.messages - Stale(s.messages, m);
    assert m.id in kept <==> m.id in s.messages;
    var row := RowFor(kept, m, s.key);
    assert row.sequence == m.sequence && row.conversation == m.conversation;
    forall other | other in s.messages && other != m.id ensures other in kept <==> !SharesKey(s.messages[other], m.sender, m.clientId) {
    }
  }

  /** A conversation is loaded whole: exactly its rows, each with its order and its message, whatever encryption does. */
  lemma LoadingIsExact(s: Cache, c: ConversationId, id: MessageId)
    requires Inv(s)
    ensures LoadMessages(s, c).Ok?
    ensures var loaded := LoadMessages(s, c).value;
            && (id in loaded <==> id in s.messages && s.messages[id].conversation == c)
            && (id in loaded ==> loaded[id] == Loaded(s.messages[id].sequence, s.messages[id].createdAt, s.messages[id].payload.value)
                                 && loaded[id].message.id == id && loaded[id].message.conversation == c)
  {
    RowsSeeThrough(s.messages, InConversation(s.messages, c), s.key);
    if id in s.messages {
      assert MessageRowInv(id, s.messages[id], s.key);
    }
  }

  /** A search finds exactly the text and system messages that match. */
  lemma SearchingIsExact(s: Cache, matches: Content -> bool, id: MessageId)
    requires Inv(s)
    ensures SearchMessages(s, matches).Ok?
    ensures var found := SearchMessages(s, matches).value;
            && (id in found <==>
                  && id in s.messages && s.messages[id].kind in {TextKind, SystemKind}
                  && (s.messages[id].payload.value.content.Text? || s.messages[id].payload.value.content.System?)
                  && matches(s.messages[id].payload.value.content))
            && (id in found ==> found[id].message == s.messages[id].payload.value)
  {
    RowsSeeThrough(s.messages, Searchable(s.messages), s.key);
    RowsSeeThrough(s.messages, Matching(s.messages, matches), s.key);
  }

  // ----- the outbox -----

  /** The ready rows are exactly those whose time has come, with their payloads. */
  lemma ReadyIsExact(s: Cache, now: Time, id: MessageId)
    requires Inv(s)
    ensures ReadyOutbox(s, now).Ok?
    ensures var ready := ReadyOutbox(s, now).value;
            && (id in ready <==> id in s.outbox && s.outbox[id].nextAttemptAt <= now)
            && (id in ready ==>
                  && ready[id].payload == s.outbox[id].payload.value && ready[id].conversation == s.outbox[id].conversation
                  && ready[id].attempts == s.outbox[id].attempts)
  {
  }

  /** An acknowledged row is gone; nothing else changes. */
  lemma AcknowledgingIsExact(s: Cache, clientId: MessageId)
    ensures LocalCache.Apply(s, Acknowledge(clientId)).Ok?
    ensures var t := LocalCache.Apply(s, Acknowledge(clientId)).value;
            t == s.(outbox := t.outbox) && clientId !in t.outbox && t.outbox == s.outbox - {clientId}
  {
  }

  /** A failure counts one more attempt, remembers the error and sets the next time; it leaves the payload and every other row. */
  lemma FailingIsExact(s: Cache, clientId: MessageId, code: string, next: Time, now: Time, other: MessageId)
    requires Inv(s)
    ensures var r := LocalCache.Apply(s, RecordFailure(clientId, code, next));
            && (r.Ok? <==> clientId in s.outbox) && (r.Err? ==> r.error == NotFound)
            && (r.Ok? ==>
                  var t := r.value;
                  && t == s.(outbox := t.outbox) && t.outbox.Keys == s.outbox.Keys
                  && t.outbox[clientId].attempts == s.outbox[clientId].attempts + 1
                  && t.outbox[clientId].nextAttemptAt == next && t.outbox[clientId].lastError == Some(code)
                  && t.outbox[clientId].payload == s.outbox[clientId].payload
                  && t.outbox[clientId].conversation == s.outbox[clientId].conversation
                  && (other in s.outbox && other != clientId ==> t.outbox[other] == s.outbox[other])
                  && (ReadyOutbox(t, now).Ok? && (clientId in ReadyOutbox(t, now).value <==> next <= now)))
  {
    if clientId in s.outbox {
      OutboxRefines(s, clientId, LocalCache.Apply(s, RecordFailure(clientId, code, next)).value.outbox[clientId]);
      ReadyIsExact(LocalCache.Apply(s, RecordFailure(clientId, code, next)).value, now, clientId);
    }
  }

  /** A retry makes the row ready at once and forgets the error; attempts and payload stay. */
  lemma RetryingIsExact(s: Cache, clientId: MessageId, now: Time, other: MessageId)
    requires Inv(s)
    ensures var r := LocalCache.Apply(s, RetryNow(clientId, now));
            && (r.Ok? <==> clientId in s.outbox) && (r.Err? ==> r.error == NotFound)
            && (r.Ok? ==>
                  var t := r.value;
                  && t == s.(outbox := t.outbox) && t.outbox.Keys == s.outbox.Keys
                  && t.outbox[clientId] == s.outbox[clientId].(nextAttemptAt := now, lastError := None)
                  && (other in s.outbox && other != clientId ==> t.outbox[other] == s.outbox[other])
                  && ReadyOutbox(t, now).Ok? && clientId in ReadyOutbox(t, now).value)
  {
    if clientId in s.outbox {
      OutboxRefines(s, clientId, LocalCache.Apply(s, RetryNow(clientId, now)).value.outbox[clientId]);
      ReadyIsExact(LocalCache.Apply(s, RetryNow(clientId, now)).value, now, clientId);
    }
  }

  /** Queueing a new key needs its conversation to be cached; queueing a known one does not. */
  lemma QueueingIsAllowedExactly(s: Cache, clientId: MessageId, c: ConversationId, payload: Json, now: Time)
    ensures var r := LocalCache.Apply(s, Enqueue(clientId, c, payload, now));
            && (r.Ok? <==> clientId in s.outbox || c in s.rooms) && (r.Err? ==> r.error == Storage)
            && (r.Ok? && clientId !in s.outbox ==>
                  r.value.outbox[clientId].nextAttemptAt == now && r.value.outbox[clientId].conversation == c
                  && r.value.outbox[clientId].attempts == 0 && r.value.outbox[clientId].lastError.None?)
            && (r.Ok? ==> r.value == s.(outbox := r.value.outbox))
  {
  }

  /** Discarding takes out the queued row, and every message row and index entry of its client id, and nothing else. */
  lemma DiscardingIsExact(s: Cache, clientId: MessageId, id: MessageId)
    ensures LocalCache.Apply(s, DiscardPending(clientId)).Ok?
    ensures var t := LocalCache.Apply(s, DiscardPending(clientId)).value;
            && t.outbox == s.outbox - {clientId}
            && (id in t.messages <==> id in s.messages && s.messages[id].clientId != clientId)
            && (id in t.messages ==> t.messages[id] == s.messages[id])
            && (id in s.search && (id in s.messages ==> s.messages[id].clientId != clientId) <==> id in t.search)
            && t == s.(messages := t.messages, search := t.search, outbox := t.outbox)
  {
  }

  // ----- drafts, bootstrap, clearing -----

  /** A draft of at most eight thousand characters is kept for a cached conversation; others stay, and a conversation without
      one has an empty draft. */
  lemma DraftingIsExact(s: Cache, c: ConversationId, body: string, other: ConversationId)
    ensures var r := LocalCache.Apply(s, SaveDraft(c, body));
            && (r.Ok? <==> |body| <= 8000 && c in s.rooms)
            && (r.Err? ==> r.error == if |body| > 8000 then Invalid else Storage)
            && (r.Ok? ==> r.value == s.(drafts := r.value.drafts) && r.value.drafts - {c} == s.drafts - {c}
                          && (other != c ==> LoadDraft(r.value, other) == LoadDraft(s, other)))
    ensures c !in s.drafts ==> LoadDraft(s, c) == Ok("")
  {
  }

  /** The last profile given for a user is the one cached. */
  lemma {:induction false} LastProfileIsCached(users: map<UserId, UserRow>, profiles: seq<Profile>, key: Option<CacheKey>, k: nat)
    requires k < |profiles| && forall j :: k < j < |profiles| ==> profiles[j].id != profiles[k].id
    ensures var t := CacheProfiles(users, profiles, key);
            profiles[k].id in t && t[profiles[k].id].payload.value == profiles[k] && t[profiles[k].id].presence == profiles[k].presence
  {
    var n := |profiles| - 1;
    if k < n {
      LastProfileIsCached(users, profiles[..n], key, k);
    }
  }

  /** The last room given for a conversation is the one cached. */
  lemma {:induction false} LastRoomIsCached(rows: map<ConversationId, RoomRow>, rooms: seq<Room>, key: Option<CacheKey>, k: nat)
    requires k < |rooms| && forall j :: k < j < |rooms| ==> rooms[j].id != rooms[k].id
    ensures var t := CacheRooms(rows, rooms, key);
            && rooms[k].id in t && t[rooms[k].id].payload.value == rooms[k] && t[rooms[k].id].kind == rooms[k].kind
            && t[rooms[k].id].pinned == rooms[k].pinned && t[rooms[k].id].muted == rooms[k].muted
  {
    var n := |rooms| - 1;
    if k < n {
      LastRoomIsCached(rows, rooms[..n], key, k);
    }
  }

  /** A bootstrap fills the tables of users and conversations, and leaves messages, drafts and outbox alone. */
  lemma BootstrapFillsTables(s: Cache, snapshot: Snapshot)
    ensures LocalCache.Apply(s, CacheBootstrap(snapshot)).Ok?
    ensures var t := LocalCache.Apply(s, CacheBootstrap(snapshot)).value;
            && t == s.(users := t.users, rooms := t.rooms, bootstrap := t.bootstrap)
            && t.rooms == CacheRooms(s.rooms, snapshot.rooms, s.key)
            && t.users == CacheProfiles(s.users, [snapshot.profile] + snapshot.friends, s.key)
  {
  }

  /** Clearing an account empties every table and keeps the key. */
  lemma ClearingIsExact(s: Cache)
    ensures LocalCache.Apply(s, ClearAccount) == Ok(Cache(map[], map[], map[], map[], map[], map[], None, s.key))
  {
  }
}
