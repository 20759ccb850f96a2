/** What every operation of the server store keeps, and what it may change. */
module ServerInvariants {
  import opened Domain
  import opened Membership
  import opened ServerState

  // ----- message logs -----

  ghost predicate Placed(m: Message, c: ConversationId, i: nat) {
    m.conversation == c && m.sequence == Some(i + 1) && m.status in {Sent, Recalled}
  }

  /** Message i of each log belongs there and has sequence i + 1. */
  ghost predicate WellPlaced(logs: map<ConversationId, seq<Message>>) {
    forall c, i: nat :: c in logs && i < |logs[c]| ==> Placed(logs[c][i], c, i)
  }

  ghost predicate UniqueIds(logs: map<ConversationId, seq<Message>>) {
    forall c, i: nat, d, j: nat, id ::
      HoldsAt(logs, c, i, id) && HoldsAt(logs, d, j, id) ==> c == d && i == j
  }

  ghost predicate Locates(logs: map<ConversationId, seq<Message>>, key: (UserId, MessageId), entry: (MessageId, nat),
                          c: ConversationId)
  {
    && 1 <= entry.1
    && HoldsAt(logs, c, entry.1 - 1, entry.0)
    && logs[c][entry.1 - 1].sender == key.0 && logs[c][entry.1 - 1].clientId == key.1
  }

  ghost predicate Located(logs: map<ConversationId, seq<Message>>, key: (UserId, MessageId), entry: (MessageId, nat)) {
    exists c :: Locates(logs, key, entry, c)
  }

  ghost predicate IsRegistered(m: Message, dedup: map<(UserId, MessageId), (MessageId, nat)>) {
    (m.sender, m.clientId) in dedup && dedup[(m.sender, m.clientId)] == (m.id, m.sequence.GetOr(0))
  }

  ghost predicate LogInv(logs: map<ConversationId, seq<Message>>, dedup: map<(UserId, MessageId), (MessageId, nat)>) {
    && WellPlaced(logs)
    && UniqueIds(logs)
    && (forall k :: k in dedup ==> Located(logs, k, dedup[k]))
    && (forall c, i: nat :: c in logs && i < |logs[c]| && !logs[c][i].content.System? ==> IsRegistered(logs[c][i], dedup))
  }

  // ----- the other components -----

  ghost predicate SyncInv(events: seq<UserEvent>, cursor: nat) {
    cursor == |events| && forall i :: 0 <= i < |events| ==> events[i].event.cursor == i + 1
  }

  function Position(readPositions: map<(UserId, ConversationId), nat>, k: (UserId, ConversationId)): nat {
    if k in readPositions then readPositions[k] else 0
  }

  ghost predicate ReadInv(settings: map<(UserId, ConversationId), Settings>,
                          readPositions: map<(UserId, ConversationId), nat>, logs: map<ConversationId, seq<Message>>)
  {
    && (forall k :: k in settings ==> settings[k].lastRead <= Position(readPositions, k))
    && (forall k :: k in readPositions ==> readPositions[k] <= |LogOf(logs, k.1)|)
  }

  ghost predicate HasRead(receipts: map<MessageId, Receipt>, logs: map<ConversationId, seq<Message>>, c: ConversationId, i: nat,
                          u: UserId)
  {
    c in logs && i < |logs[c]| && u in ReceiptOf(receipts, logs[c][i].id).readBy
  }

  /** Readers are among those delivered to, never the sender, and have read every earlier message of other people. */
  ghost predicate ReceiptInv(receipts: map<MessageId, Receipt>, logs: map<ConversationId, seq<Message>>) {
    && (forall id :: id in receipts ==> receipts[id].readBy <= receipts[id].deliveredTo)
    && (forall c, i: nat, u :: HasRead(receipts, logs, c, i, u) ==> logs[c][i].sender != u)
    && (forall c, i: nat, j: nat, u ::
          HasRead(receipts, logs, c, i, u) && j < i && logs[c][j].sender != u ==> HasRead(receipts, logs, c, j, u))
  }

  ghost predicate ScheduleInv(scheduled: seq<Scheduled>) {
    forall i, j :: 0 <= i < j < |scheduled| ==>
      && scheduled[i].id != scheduled[j].id
      && !SameKey(scheduled[i], scheduled[j].actor, scheduled[j].request.clientId)
  }

  ghost predicate AttachmentInv(attachments: map<AttachmentId, StoredAttachment>) {
    forall id :: id in attachments ==>
      attachments[id].attachment.id == id && !(attachments[id].available && attachments[id].quarantined)
  }

  /** Every attachment in a content, through bundles, is a usable record with the same metadata; no bundle nests. */
  ghost predicate Sound(content: Content, attachments: map<AttachmentId, StoredAttachment>) {
    match content
    case Media(_, a) =>
      a.id in attachments && attachments[a.id].attachment == a && attachments[a.id].available && !attachments[a.id].quarantined
    case Bundle(messages) =>
      forall m :: m in messages ==> !m.content.Bundle? && Sound(m.content, attachments)
    case Text(_) => true
    case System(_) => true
  }

  ghost predicate ContentInv(logs: map<ConversationId, seq<Message>>, attachments: map<AttachmentId, StoredAttachment>) {
    forall c, i: nat :: c in logs && i < |logs[c]| ==> Sound(logs[c][i].content, attachments)
  }

  ghost predicate OwnerInv(conversations: map<ConversationId, Conversation>) {
    forall c :: c in conversations && conversations[c].kind.Group? ==> HasAtMostOneOwner(conversations[c].members)
  }

  ghost predicate Inv(s: State) {
    && LogInv(s.logs, s.dedup)
    && SyncInv(s.events, s.cursor)
    && ReadInv(s.settings, s.readPositions, s.logs)
    && ReceiptInv(s.receipts, s.logs)
    && ScheduleInv(s.scheduled)
    && AttachmentInv(s.attachments)
    && ContentInv(s.logs, s.attachments)
    && OwnerInv(s.conversations)
  }

  // ----- what may change -----

  ghost predicate SameStamp(m: Message, n: Message) {
    n == m || n == m.(status := Recalled, content := System(MessageRecalled))
  }

  ghost predicate LogsGrow(a: map<ConversationId, seq<Message>>, b: map<ConversationId, seq<Message>>) {
    forall c :: c in a ==> c in b && |a[c]| <= |b[c]| && forall i :: 0 <= i < |a[c]| ==> SameStamp(a[c][i], b[c][i])
  }

  ghost predicate DedupGrows(a: map<(UserId, MessageId), (MessageId, nat)>, b: map<(UserId, MessageId), (MessageId, nat)>) {
    forall k :: k in a ==> k in b && b[k] == a[k]
  }

  ghost predicate AttachmentsStay(a: map<AttachmentId, StoredAttachment>, b: map<AttachmentId, StoredAttachment>) {
    forall id :: id in a && a[id].available ==> id in b && b[id] == a[id]
  }

  /** Logs, dedup table and events only grow, sent attachments stay, and read positions advance except a deleted user's. */
  ghost predicate Evolves(s: State, t: State, deleted: set<UserId>) {
    && LogsGrow(s.logs, t.logs)
    && DedupGrows(s.dedup, t.dedup)
    && s.events <= t.events
    && AttachmentsStay(s.attachments, t.attachments)
    && forall k :: k in s.readPositions && k.0 !in deleted ==> s.readPositions[k] <= Position(t.readPositions, k)
  }

  lemma EvolvesIsReflexive(s: State, deleted: set<UserId>)
    ensures Evolves(s, s, deleted)
  {
  }

  lemma EvolvesIsTransitive(s: State, t: State, u: State, gone: set<UserId>, goneLater: set<UserId>)
    requires Evolves(s, t, gone) && Evolves(t, u, goneLater)
    ensures Evolves(s, u, gone + goneLater)
  {
    forall c | c in s.logs
      ensures c in u.logs && |s.logs[c]| <= |u.logs[c]| && forall i :: 0 <= i < |s.logs[c]| ==> SameStamp(s.logs[c][i], u.logs[c][i])
    {
      forall i | 0 <= i < |s.logs[c]| ensures SameStamp(s.logs[c][i], u.logs[c][i]) {
        assert SameStamp(s.logs[c][i], t.logs[c][i]) && SameStamp(t.logs[c][i], u.logs[c][i]);
      }
    }
    forall k | k in s.readPositions && k.0 !in gone + goneLater
      ensures s.readPositions[k] <= Position(u.readPositions, k)
    {
      assert s.readPositions[k] <= Position(t.readPositions, k);
    }
  }

  // ----- fresh identifiers -----

  ghost predicate IsFresh(s: State, id: MessageId) {
    && id !in s.receipts
    && forall c, i: nat :: !HoldsAt(s.logs, c, i, id)
  }

  ghost predicate AllFresh(s: State, actor: UserId, minteds: seq<Minted>) {
    && (forall i :: 0 <= i < |minteds| ==> IsFresh(s, minteds[i].id) && (actor, minteds[i].clientId) !in s.dedup)
    && (forall i, j :: 0 <= i < j < |minteds| ==> minteds[i].id != minteds[j].id && minteds[i].clientId != minteds[j].clientId)
  }

  /** Generated identifiers never collide with the ones in use. */
  ghost predicate FreshIds(s: State, op: Op) {
    match op
    case UpdateGroup(_, _, _, minted) => IsFresh(s, minted.id)
    case AddMembers(_, _, _, minted) => IsFresh(s, minted.id)
    case LeaveGroup(_, _, minted) => IsFresh(s, minted.id)
    case UpdateMember(_, _, _, _, _, _, minted) => IsFresh(s, minted.id)
    case RemoveMember(_, _, _, minted) => IsFresh(s, minted.id)
    case TransferOwnership(_, _, _, minted) => IsFresh(s, minted.id)
    case SetMuteAll(_, _, _, minted) => IsFresh(s, minted.id)
    case DecideJoin(_, _, _, minted) => IsFresh(s, minted.id)
    case Send(_, _, _, id) => IsFresh(s, id)
    case Forward(actor, sources, _, _, minteds) => |minteds| == |sources| && AllFresh(s, actor, minteds)
    case Schedule(item) => forall e :: e in s.scheduled ==> e.id != item.id
    case AuthorizeAttachment(_, id, _, _) => id !in s.attachments
    case _ => true
  }

  // ----- appending to a log -----

  lemma LastIsLength(logs: map<ConversationId, seq<Message>>, c: ConversationId)
    requires WellPlaced(logs)
    ensures LastSequence(LogOf(logs, c)) == |LogOf(logs, c)|
  {
    var log := LogOf(logs, c);
    if log != [] {
      assert Placed(logs[c][|log| - 1], c, |log| - 1);
    }
  }

  /** A log grows by one fresh message, which is either a notice or enters the dedup table. */
  ghost predicate Appends(s: State, t: State, m: Message, filed: bool) {
    && IsFresh(s, m.id)
    && Placed(m, m.conversation, |LogOf(s.logs, m.conversation)|)
    && t.logs == s.logs[m.conversation := LogOf(s.logs, m.conversation) + [m]]
    && t.dedup == (if filed then s.dedup[(m.sender, m.clientId) := (m.id, |LogOf(s.logs, m.conversation)| + 1)] else s.dedup)
    && t.receipts == (if filed then s.receipts[m.id := Receipt(NO_RECEIPT.deliveredTo + {m.sender}, {})] else s.receipts)
    && (if filed then (m.sender, m.clientId) !in s.dedup else m.content.System?)
  }

  lemma AppendPlaces(s: State, t: State, m: Message, filed: bool)
    requires WellPlaced(s.logs) && UniqueIds(s.logs) && Appends(s, t, m, filed)
    ensures WellPlaced(t.logs) && UniqueIds(t.logs) && LogsGrow(s.logs, t.logs) && DedupGrows(s.dedup, t.dedup)
  {
    var c := m.conversation;
    var n := |LogOf(s.logs, c)|;
    assert t.logs[c][n] == m;
    forall d, i: nat | d in t.logs && i < |t.logs[d]| ensures Placed(t.logs[d][i], d, i) {
      if !(d == c && i == n) {
        assert t.logs[d][i] == s.logs[d][i];
      }
    }
    forall d, i: nat, id | HoldsAt(t.logs, d, i, id) && !(d == c && i == n) ensures HoldsAt(s.logs, d, i, id) {
    }
  }

  lemma AppendLogs(s: State, t: State, m: Message, filed: bool)
    requires LogInv(s.logs, s.dedup) && Appends(s, t, m, filed)
    ensures LogInv(t.logs, t.dedup) && LogsGrow(s.logs, t.logs) && DedupGrows(s.dedup, t.dedup)
  {
    AppendPlaces(s, t, m, filed);
    var c := m.conversation;
    forall k | k in t.dedup ensures Located(t.logs, k, t.dedup[k]) {
      if filed && k == (m.sender, m.clientId) {
        assert Locates(t.logs, k, t.dedup[k], c);
      } else {
        var d :| Locates(s.logs, k, s.dedup[k], d);
        assert Locates(t.logs, k, t.dedup[k], d);
      }
    }
    forall d, i: nat | d in t.logs && i < |t.logs[d]| && !t.logs[d][i].content.System?
      ensures IsRegistered(t.logs[d][i], t.dedup)
    {
      if !(d == c && i == |LogOf(s.logs, c)|) {
        assert t.logs[d][i] == s.logs[d][i];
        assert IsRegistered(s.logs[d][i], s.dedup);
      }
    }
  }

  lemma AppendReads(s: State, t: State, m: Message, filed: bool)
    requires ReceiptInv(s.receipts, s.logs) && Appends(s, t, m, filed)
    ensures ReceiptInv(t.receipts, t.logs)
    ensures ReadInv(s.settings, s.readPositions, s.logs) ==> ReadInv(s.settings, s.readPositions, t.logs)
  {
    var c := m.conversation;
    var n := |LogOf(s.logs, c)|;
    forall d, i: nat, u | HasRead(t.receipts, t.logs, d, i, u) ensures HasRead(s.receipts, s.logs, d, i, u) {
      if !(d == c && i == n) {
        assert HoldsAt(s.logs, d, i, s.logs[d][i].id);
      }
    }
    forall d, i: nat, u | HasRead(s.receipts, s.logs, d, i, u) ensures HasRead(t.receipts, t.logs, d, i, u) {
      assert HoldsAt(s.logs, d, i, s.logs[d][i].id);
    }
    forall d, i: nat, j: nat, u | HasRead(t.receipts, t.logs, d, i, u) && j < i && t.logs[d][j].sender != u
      ensures HasRead(t.receipts, t.logs, d, j, u)
    {
      assert HasRead(s.receipts, s.logs, d, i, u);
      assert HasRead(s.receipts, s.logs, d, j, u);
    }
  }

  lemma AppendContent(s: State, t: State, m: Message, filed: bool)
    requires ContentInv(s.logs, s.attachments) && Appends(s, t, m, filed) && Sound(m.content, s.attachments)
    ensures ContentInv(t.logs, s.attachments)
  {
    forall d, i: nat | d in t.logs && i < |t.logs[d]| ensures Sound(t.logs[d][i].content, s.attachments) {
      if !(d == m.conversation && i == |LogOf(s.logs, d)|) {
        assert t.logs[d][i] == s.logs[d][i];
      }
    }
  }

  /** Everything an operation can do besides appending one message and publishing events. */
  ghost predicate SameElsewhere(s: State, t: State) {
    && t.settings == s.settings && t.readPositions == s.readPositions
    && t.scheduled == s.scheduled && t.attachments == s.attachments
    && (forall c :: c in t.conversations ==> c in s.conversations && t.conversations[c].kind == s.conversations[c].kind
                                             && t.conversations[c].members == s.conversations[c].members)
    && t.conversations.Keys == s.conversations.Keys
  }

  lemma AppendKeeps(s: State, t: State, m: Message, filed: bool)
    requires Inv(s) && Appends(s, t, m, filed) && Sound(m.content, s.attachments)
    requires SameElsewhere(s, t)
    requires SyncInv(t.events, t.cursor) && s.events <= t.events
    ensures Inv(t) && Evolves(s, t, {})
  {
    AppendLogs(s, t, m, filed);
    AppendReads(s, t, m, filed);
    AppendContent(s, t, m, filed);
  }

  /** A notice is one message by the actor, the next of its conversation, filed under no key and announced to the members. */
  lemma NoticeAppends(s: State, c: ConversationId, actor: UserId, notice: Notice, minted: Minted, now: Time) returns (m: Message)
    requires WellPlaced(s.logs) && c in s.conversations && IsFresh(s, minted.id)
    ensures var r := PostNotice(s, c, actor, notice, minted, now);
            && r.Ok? && Appends(s, r.value, m, false) && SameElsewhere(s, r.value) && Sound(m.content, s.attachments)
            && r.value.conversations == s.conversations[c := s.conversations[c].(updatedAt := now)]
            && m.id == minted.id && m.clientId == minted.clientId && m.conversation == c && m.sender == actor
            && m.content == System(notice)
            && r.value.cursor == s.cursor + 1
            && r.value.events == s.events + [UserEvent(s.conversations[c].members.Keys, Event(s.cursor + 1, MessageCreated(m), now))]
  {
    LastIsLength(s.logs, c);
    m := Message(minted.id, minted.clientId, c, actor, Some(|LogOf(s.logs, c)| + 1), System(notice), Sent, {}, false, now, Some(now));
  }

  lemma NoticeKeeps(s: State, c: ConversationId, actor: UserId, notice: Notice, minted: Minted, now: Time)
    requires Inv(s) && c in s.conversations && IsFresh(s, minted.id)
    ensures var r := PostNotice(s, c, actor, notice, minted, now);
            r.Ok? && Inv(r.value) && Evolves(s, r.value, {}) && SameElsewhere(s, r.value)
            && r.value.conversations == s.conversations[c := s.conversations[c].(updatedAt := now)]
  {
    var m := NoticeAppends(s, c, actor, notice, minted, now);
    AppendKeeps(s, PostNotice(s, c, actor, notice, minted, now).value, m, false);
  }

  // ----- restamping: a recall -----

  /** The same messages in the same places, some of them recalled. */
  ghost predicate Restamps(a: map<ConversationId, seq<Message>>, b: map<ConversationId, seq<Message>>) {
    && a.Keys == b.Keys
    && forall c :: c in a ==> |a[c]| == |b[c]| && forall i :: 0 <= i < |a[c]| ==> SameStamp(a[c][i], b[c][i])
  }

  lemma RestampLogs(a: map<ConversationId, seq<Message>>, b: map<ConversationId, seq<Message>>,
                    dedup: map<(UserId, MessageId), (MessageId, nat)>)
    requires LogInv(a, dedup) && Restamps(a, b)
    ensures LogInv(b, dedup) && LogsGrow(a, b)
  {
    forall c, i: nat | c in b && i < |b[c]|
      ensures Placed(b[c][i], c, i) && (!b[c][i].content.System? ==> IsRegistered(b[c][i], dedup))
    {
      assert Placed(a[c][i], c, i) && SameStamp(a[c][i], b[c][i]);
    }
    forall c, i: nat, id | HoldsAt(b, c, i, id) ensures HoldsAt(a, c, i, id) {
      assert SameStamp(a[c][i], b[c][i]);
    }
    forall k | k in dedup ensures Located(b, k, dedup[k]) {
      var c :| Locates(a, k, dedup[k], c);
      assert SameStamp(a[c][dedup[k].1 - 1], b[c][dedup[k].1 - 1]);
      assert Locates(b, k, dedup[k], c);
    }
  }

  lemma RestampReads(a: map<ConversationId, seq<Message>>, b: map<ConversationId, seq<Message>>, receipts: map<MessageId, Receipt>)
    requires ReceiptInv(receipts, a) && Restamps(a, b)
    ensures ReceiptInv(receipts, b)
  {
    forall c, i: nat, u ensures HasRead(receipts, b, c, i, u) == HasRead(receipts, a, c, i, u) {
      if c in a && i < |a[c]| {
        assert SameStamp(a[c][i], b[c][i]);
      }
    }
    forall c, i: nat | c in a && i < |a[c]| ensures a[c][i].sender == b[c][i].sender {
      assert SameStamp(a[c][i], b[c][i]);
    }
  }

  lemma RestampContent(a: map<ConversationId, seq<Message>>, b: map<ConversationId, seq<Message>>,
                       attachments: map<AttachmentId, StoredAttachment>)
    requires ContentInv(a, attachments) && Restamps(a, b)
    ensures ContentInv(b, attachments)
  {
    forall c, i: nat | c in b && i < |b[c]| ensures Sound(b[c][i].content, attachments) {
      assert SameStamp(a[c][i], b[c][i]) && Sound(a[c][i].content, attachments);
    }
  }

  // ----- reading -----

  /** Exactly the reader's receipts for other people's messages up to a sequence of one log are added. */
  lemma ReceivingReads(s: State, c: ConversationId, reader: UserId, next: nat)
    requires LogInv(s.logs, s.dedup) && ReceiptInv(s.receipts, s.logs) && next <= |LogOf(s.logs, c)|
    ensures var receipts := Receive(s.receipts, ReadIds(LogOf(s.logs, c), reader, next), reader);
            && ReceiptInv(receipts, s.logs)
            && (forall d, i: nat, u :: HasRead(receipts, s.logs, d, i, u) <==>
                  HasRead(s.receipts, s.logs, d, i, u)
                  || (d == c && i < next && LogOf(s.logs, c)[i].sender != reader && u == reader))
  {
    var log := LogOf(s.logs, c);
    var ids := ReadIds(log, reader, next);
    var receipts := Receive(s.receipts, ids, reader);
    forall d, i: nat | d in s.logs && i < |s.logs[d]|
      ensures s.logs[d][i].id in ids <==> d == c && i < next && s.logs[d][i].sender != reader
    {
      ReadIdsAt(s, c, reader, next, d, i);
    }
    forall d, i: nat, u
      ensures HasRead(receipts, s.logs, d, i, u) <==>
              HasRead(s.receipts, s.logs, d, i, u) || (d == c && i < next && log[i].sender != reader && u == reader)
    {
    }
  }

  lemma ReadIdsAt(s: State, c: ConversationId, reader: UserId, next: nat, d: ConversationId, i: nat)
    requires LogInv(s.logs, s.dedup) && d in s.logs && i < |s.logs[d]|
    ensures s.logs[d][i].id in ReadIds(LogOf(s.logs, c), reader, next) <==> d == c && i < next && s.logs[d][i].sender != reader
  {
    var log := LogOf(s.logs, c);
    var x := s.logs[d][i].id;
    assert Placed(s.logs[d][i], d, i);
    if x in ReadIds(log, reader, next) {
      var j :| 0 <= j < |log| && log[j].sender != reader && log[j].sequence.Some? && log[j].sequence.value <= next && log[j].id == x;
      assert HoldsAt(s.logs, c, j, x) && HoldsAt(s.logs, d, i, x);
      assert Placed(s.logs[c][j], c, j);
    }
  }
}
