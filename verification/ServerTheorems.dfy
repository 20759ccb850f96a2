/** Results about whole runs of the server store. */
module ServerTheorems {
  import opened Domain
  import opened Membership
  import opened ServerState
  import opened ServerInvariants
  import opened ServerRuns

  datatype Call = Call(op: Op, now: Time)

  /** Runs in which generated identifiers never collide. */
  ghost predicate Possible(s: State, calls: seq<Call>)
    decreases |calls|
  {
    calls == []
    || (MintsEnough(calls[0].op) && FreshIds(s, calls[0].op) && Possible(Step(s, calls[0].op, calls[0].now), calls[1..]))
  }

  ghost function Run(s: State, calls: seq<Call>): State
    requires Possible(s, calls)
    decreases |calls|
  {
    if calls == [] then s else Run(Step(s, calls[0].op, calls[0].now), calls[1..])
  }

  function DeletedBy(calls: seq<Call>): set<UserId> {
    if calls == [] then {} else Deletes(calls[0].op) + DeletedBy(calls[1..])
  }

  lemma EmptyStoreIsGood()
    ensures Inv(EMPTY)
  {
  }

  /** The invariant holds after every run, and along it the logs, the dedup table and the event log only grow. */
  lemma {:induction false} RunKeeps(s: State, calls: seq<Call>)
    requires Inv(s) && Possible(s, calls)
    ensures Inv(Run(s, calls)) && Evolves(s, Run(s, calls), DeletedBy(calls))
    decreases |calls|
  {
    if calls == [] {
      EvolvesIsReflexive(s, {});
    } else {
      var next := Step(s, calls[0].op, calls[0].now);
      StepKeeps(s, calls[0].op, calls[0].now);
      RunKeeps(next, calls[1..]);
      EvolvesIsTransitive(s, next, Run(s, calls), Deletes(calls[0].op), DeletedBy(calls[1..]));
    }
  }

  // ----- what holds in every reachable store -----

  /** Message i of a log has sequence i + 1 and belongs there; a client message is filed under its sender and client id,
      and every dedup entry names a message with that sender, client id and sequence. */
  lemma LogsAreNumberedAndFiled(calls: seq<Call>, c: ConversationId, i: nat, key: (UserId, MessageId))
    requires Possible(EMPTY, calls)
    ensures var s := Run(EMPTY, calls);
            && (c in s.logs && i < |s.logs[c]| ==>
                  && s.logs[c][i].conversation == c && s.logs[c][i].sequence == Some(i + 1)
                  && (!s.logs[c][i].content.System? ==> IsRegistered(s.logs[c][i], s.dedup)))
            && (key in s.dedup ==> Located(s.logs, key, s.dedup[key]))
            && s.cursor == |s.events| && (i < |s.events| ==> s.events[i].event.cursor == i + 1)
  {
    EmptyStoreIsGood();
    RunKeeps(EMPTY, calls);
    var s := Run(EMPTY, calls);
    if c in s.logs && i < |s.logs[c]| {
      assert Placed(s.logs[c][i], c, i);
    }
  }

  /** The read-state chain: what a user marked as read, the read position and the log's length are in order, and a reader
      of a message was delivered it, did not send it, and has read everything other people sent before it. */
  lemma ReadStateChain(calls: seq<Call>, u: UserId, c: ConversationId, i: nat, j: nat)
    requires Possible(EMPTY, calls)
    ensures var s := Run(EMPTY, calls);
            var log := LogOf(s.logs, c);
            && SettingsOf(s, u, c).lastRead <= ReadPosition(s, u, c) <= |log|
            && (i < |log| && u in ReceiptOf(s.receipts, log[i].id).readBy ==>
                  && log[i].sender != u && u in ReceiptOf(s.receipts, log[i].id).deliveredTo
                  && (j < i && log[j].sender != u ==> u in ReceiptOf(s.receipts, log[j].id).readBy))
  {
    EmptyStoreIsGood();
    RunKeeps(EMPTY, calls);
    var s := Run(EMPTY, calls);
    if i < |LogOf(s.logs, c)| && u in ReceiptOf(s.receipts, LogOf(s.logs, c)[i].id).readBy {
      assert HasRead(s.receipts, s.logs, c, i, u);
    }
  }

  /** Read positions never go back, except when their user deletes the account. */
  lemma ReadPositionsAdvance(s: State, calls: seq<Call>, u: UserId, c: ConversationId)
    requires Inv(s) && Possible(s, calls) && u !in DeletedBy(calls)
    ensures ReadPosition(s, u, c) <= ReadPosition(Run(s, calls), u, c)
  {
    RunKeeps(s, calls);
    assert (u, c) in s.readPositions ==> s.readPositions[(u, c)] <= Position(Run(s, calls).readPositions, (u, c));
  }

  // ----- one message per key -----

  /** Two client messages of one sender with one client id are the same message of the same log. */
  lemma OneMessagePerKey(s: State, c: ConversationId, i: nat, d: ConversationId, j: nat)
    requires Inv(s) && c in s.logs && i < |s.logs[c]| && d in s.logs && j < |s.logs[d]|
    requires !s.logs[c][i].content.System? && !s.logs[d][j].content.System?
    requires s.logs[c][i].sender == s.logs[d][j].sender && s.logs[c][i].clientId == s.logs[d][j].clientId
    ensures c == d && i == j
  {
    assert IsRegistered(s.logs[c][i], s.dedup) && IsRegistered(s.logs[d][j], s.dedup);
    assert HoldsAt(s.logs, c, i, s.logs[c][i].id) && HoldsAt(s.logs, d, j, s.logs[c][i].id);
  }

  /** The message of this sender and key that the dedup table knows. */
  ghost predicate IsCopy(s: State, user: UserId, key: MessageId, c: ConversationId, i: nat) {
    c in s.logs && i < |s.logs[c]| && s.logs[c][i].sender == user && s.logs[c][i].clientId == key
    && IsRegistered(s.logs[c][i], s.dedup)
  }

  /** A message of this sender and key that the server did not write itself. */
  ghost predicate IsClientCopy(s: State, user: UserId, key: MessageId, c: ConversationId, i: nat) {
    c in s.logs && i < |s.logs[c]| && s.logs[c][i].sender == user && s.logs[c][i].clientId == key
    && !s.logs[c][i].content.System?
  }

  /** A key in the dedup table means exactly one message: one place in one log holds it, and no other place holds
      a message of this sender and key that is not a system message. */
  lemma RegisteredExactlyOnce(s: State, user: UserId, key: MessageId) returns (c: ConversationId, i: nat)
    requires Inv(s) && (user, key) in s.dedup
    ensures IsCopy(s, user, key, c, i)
    ensures forall d, j: nat :: IsCopy(s, user, key, d, j) || IsClientCopy(s, user, key, d, j) ==> d == c && j == i
  {
    var entry := s.dedup[(user, key)];
    assert Located(s.logs, (user, key), entry);
    c :| Locates(s.logs, (user, key), entry, c);
    i := entry.1 - 1;
    assert Placed(s.logs[c][i], c, i);
    forall d, j: nat | IsClientCopy(s, user, key, d, j) ensures IsCopy(s, user, key, d, j) {
      assert IsRegistered(s.logs[d][j], s.dedup);
    }
    forall d, j: nat | IsCopy(s, user, key, d, j) ensures d == c && j == i {
      assert HoldsAt(s.logs, d, j, entry.0);
    }
  }

  /** A key in the dedup table answers every later send with the message it names, and nothing changes. */
  lemma KnownKeyIsAnswered(s: State, actor: UserId, c: ConversationId, request: SendRequest, id: MessageId, now: Time)
    requires Inv(s) && (actor, request.clientId) in s.dedup && ExpiryInRange(request.expiresIn)
    ensures var (known, sequence) := s.dedup[(actor, request.clientId)];
            var r := SendMessage(s, actor, c, request, id, now);
            && r.Ok? && r.value.0 == s && r.value.1.Acknowledged? && r.value.1.id == known && r.value.1.sequence == sequence
            && r.value.1.message.id == known && r.value.1.message.sequence == Some(sequence)
            && r.value.1.message.sender == actor && r.value.1.message.clientId == request.clientId
  {
    var key := (actor, request.clientId);
    var (known, sequence) := s.dedup[key];
    assert Located(s.logs, key, s.dedup[key]);
    var d :| Locates(s.logs, key, s.dedup[key], d);
    assert Placed(s.logs[d][sequence - 1], d, sequence - 1);
    FindIsExact(s.logs, d, sequence - 1, known);
  }

  /** Retrying a send after any run, with any content, into any conversation, returns the first acknowledgement
      and leaves the store as it was. */
  lemma RetryIsIdempotent(s: State, actor: UserId, c: ConversationId, request: SendRequest, id: MessageId, now: Time,
                          calls: seq<Call>, c': ConversationId, retry: SendRequest, id': MessageId, now': Time)
    requires Inv(s) && IsFresh(s, id) && SendMessage(s, actor, c, request, id, now).Ok?
    requires Possible(SendMessage(s, actor, c, request, id, now).value.0, calls)
    requires retry.clientId == request.clientId && ExpiryInRange(retry.expiresIn)
    ensures var (sent, first) := SendMessage(s, actor, c, request, id, now).value;
            var later := Run(sent, calls);
            var r := SendMessage(later, actor, c', retry, id', now');
            && r.Ok? && r.value.0 == later && r.value.1.Acknowledged?
            && r.value.1.id == first.id && r.value.1.sequence == first.sequence && r.value.1.message.id == first.id
  {
    var (sent, first) := SendMessage(s, actor, c, request, id, now).value;
    SendKeeps(s, actor, c, request, id, now);
    SentIsRegistered(s, actor, c, request, id, now);
    RunKeeps(sent, calls);
    KnownKeyIsAnswered(Run(sent, calls), actor, c', retry, id', now');
  }

  lemma SentIsRegistered(s: State, actor: UserId, c: ConversationId, request: SendRequest, id: MessageId, now: Time)
    requires Inv(s) && IsFresh(s, id) && SendMessage(s, actor, c, request, id, now).Ok?
    ensures var (sent, reply) := SendMessage(s, actor, c, request, id, now).value;
            && reply.Acknowledged? && (actor, request.clientId) in sent.dedup
            && sent.dedup[(actor, request.clientId)] == (reply.id, reply.sequence)
  {
    if (actor, request.clientId) in s.dedup {
      KnownKeyIsAnswered(s, actor, c, request, id, now);
    }
  }

  /** A first send adds one message at the end of its log, with the next number, and tells exactly the members. */
  lemma FirstSendAppendsOnce(s: State, actor: UserId, c: ConversationId, request: SendRequest, id: MessageId, now: Time)
    requires Inv(s) && IsFresh(s, id) && (actor, request.clientId) !in s.dedup && SendMessage(s, actor, c, request, id, now).Ok?
    ensures var (t, reply) := SendMessage(s, actor, c, request, id, now).value;
            var m := reply.message;
            && c in s.conversations && s.conversations[c].CanSend(actor, now)
            && LogOf(t.logs, c) == LogOf(s.logs, c) + [m] && (forall d :: d != c ==> LogOf(t.logs, d) == LogOf(s.logs, d))
            && m.id == reply.id == id && m.sequence == Some(reply.sequence) && reply.sequence == |LogOf(s.logs, c)| + 1
            && m.sender == actor && m.clientId == request.clientId && m.content == request.content
            && t.receipts.Keys == s.receipts.Keys + {id}
            && |t.events| == |s.events| + 1 && t.events[|s.events|].recipients == s.conversations[c].members.Keys
            && t.events[|s.events|].event.body == MessageCreated(m)
  {
    LastIsLength(s.logs, c);
  }

  // ----- ids for several sends -----

  ghost predicate AreFresh(s: State, ids: seq<MessageId>) {
    && (forall i :: 0 <= i < |ids| ==> IsFresh(s, ids[i]))
    && (forall i, j :: 0 <= i < j < |ids| ==> ids[i] != ids[j])
  }

  lemma SplitFresh(s: State, ids: seq<MessageId>)
    requires AreFresh(s, ids) && ids != []
    ensures IsFresh(s, ids[0]) && AreFresh(s, ids[1..]) && ids[0] !in ids[1..]
  {
  }

  lemma AppendLeavesFresh(s: State, t: State, c: ConversationId, m: Message, other: MessageId)
    requires IsFresh(s, other) && m.id != other && other !in t.receipts
    requires LogOf(t.logs, c) == LogOf(s.logs, c) + [m] && forall d :: d != c ==> LogOf(t.logs, d) == LogOf(s.logs, d)
    ensures IsFresh(t, other)
  {
    forall d, i: nat ensures !HoldsAt(t.logs, d, i, other) {
      if HoldsAt(t.logs, d, i, other) && i < |LogOf(s.logs, d)| {
        assert HoldsAt(s.logs, d, i, other);
      }
    }
  }

  /** A send uses up the one id it is given. */
  lemma SendLeavesFresh(s: State, actor: UserId, c: ConversationId, request: SendRequest, id: MessageId, now: Time,
                        other: MessageId)
    requires Inv(s) && IsFresh(s, id) && IsFresh(s, other) && other != id
    requires SendMessage(s, actor, c, request, id, now).Ok?
    ensures IsFresh(SendMessage(s, actor, c, request, id, now).value.0, other)
  {
    if (actor, request.clientId) in s.dedup {
      KnownKeyIsAnswered(s, actor, c, request, id, now);
    } else {
      FirstSendAppendsOnce(s, actor, c, request, id, now);
      var r := SendMessage(s, actor, c, request, id, now).value;
      AppendLeavesFresh(s, r.0, c, r.1.message, other);
    }
  }

  ghost predicate DeliveredGrows(s: State, t: State) {
    forall k :: k in s.dedup ==> k in t.dedup
  }

  // ----- read state -----

  lemma {:induction false} NothingUnread(log: seq<Message>, reader: UserId, lastRead: nat)
    requires forall i :: 0 <= i < |log| ==> log[i].sequence.Some? && log[i].sequence.value <= lastRead
    ensures Unread(log, reader, lastRead) == 0
  {
    if log != [] {
      NothingUnread(log[..|log| - 1], reader, lastRead);
    }
  }

  /** After marking everything read, every conversation the reader can see counts zero unread messages. */
  lemma MarkAllReadClearsUnread(s: State, actor: UserId, now: Time, c: ConversationId)
    requires Inv(s) && c in s.conversations && s.conversations[c].CanRead(actor)
    ensures var t := ReadEverything(s, actor, now).value.0;
            && Unread(LogOf(t.logs, c), actor, SettingsOf(t, actor, c).lastRead) == 0
            && ReadPosition(t, actor, c) == |LogOf(t.logs, c)|
  {
    var t := ReadEverything(s, actor, now).value.0;
    var log := LogOf(s.logs, c);
    LastIsLength(s.logs, c);
    assert (actor, c) in ReadableKeys(s, actor);
    forall i | 0 <= i < |log| ensures log[i].sequence.Some? && log[i].sequence.value <= |log| {
      assert Placed(s.logs[c][i], c, i);
    }
    NothingUnread(log, actor, |log|);
  }

  /** Reading up to a sequence leaves exactly the receipts of other people's messages up to it, on top of the old ones. */
  lemma MarkReadGivesExactReceipts(s: State, actor: UserId, c: ConversationId, through: nat, now: Time)
    requires Inv(s) && ReadUpTo(s, actor, c, through, now).Ok?
    ensures var t := ReadUpTo(s, actor, c, through, now).value.0;
            forall d, i: nat, u :: HasRead(t.receipts, t.logs, d, i, u) <==>
              HasRead(s.receipts, s.logs, d, i, u)
              || (d == c && i < through && i < |LogOf(s.logs, c)| && LogOf(s.logs, c)[i].sender != actor && u == actor)
  {
    LastIsLength(s.logs, c);
    var latest := |LogOf(s.logs, c)|;
    ReceivingReads(s, c, actor, if through < latest then through else latest);
  }

  // ----- attachments -----

  /** Cleanup reports the storage key of each record it removes and of no other; records in use stay. */
  lemma CleanupReportsWhatItRemoves(s: State, now: Time)
    ensures var (t, reply) := Cleanup(s, now).value;
            && reply.Purged? && reply.keys.Keys == s.attachments.Keys - t.attachments.Keys
            && (forall id :: id in reply.keys ==> reply.keys[id] == s.attachments[id].attachment.storageKey
                                                  && !s.attachments[id].available && s.attachments[id].expiresAt <= now)
            && (forall id :: id in s.attachments && (s.attachments[id].available || s.attachments[id].expiresAt > now) ==>
                               id in t.attachments && t.attachments[id] == s.attachments[id])
  {
    var (t, reply) := Cleanup(s, now).value;
    assert reply.keys.Keys == s.attachments.Keys - t.attachments.Keys;
  }

  /** `message_contains_attachment`: whether a content refers to an attachment, through bundles. */
  ghost predicate Contains(content: Content, id: AttachmentId) {
    match content
    case Media(_, attachment) => attachment.id == id
    case Bundle(messages) => exists m :: m in messages && Contains(m.content, id)
    case Text(_) => false
    case System(_) => false
  }

  lemma {:induction false} SoundContentIsUsable(content: Content, attachments: map<AttachmentId, StoredAttachment>, id: AttachmentId)
    requires Sound(content, attachments) && Contains(content, id)
    ensures id in attachments && attachments[id].available && !attachments[id].quarantined
  {
    if content.Bundle? {
      var m :| m in content.messages && Contains(m.content, id);
      SoundContentIsUsable(m.content, attachments, id);
    }
  }

  /** Once a message holding an attachment is in a log, no later run removes, quarantines or alters that attachment. */
  lemma SentAttachmentsSurvive(s: State, calls: seq<Call>, c: ConversationId, i: nat, id: AttachmentId)
    requires Inv(s) && Possible(s, calls)
    requires c in s.logs && i < |s.logs[c]| && Contains(s.logs[c][i].content, id)
    ensures id in s.attachments && id in Run(s, calls).attachments && Run(s, calls).attachments[id] == s.attachments[id]
    ensures s.attachments[id].available && !s.attachments[id].quarantined
  {
    SoundContentIsUsable(s.logs[c][i].content, s.attachments, id);
    RunKeeps(s, calls);
  }
}
