/** When the server accepts a message, and that accepting one decides nothing about the next. */
module Sending {
  import opened Domain
  import opened Membership
  import opened ServerState
  import opened ServerInvariants
  import opened ServerRuns
  import opened ServerTheorems

  // ----- who may send what -----

  predicate Befriended(s: State, a: UserId, b: UserId) {
    (a, b) in s.friends || (b, a) in s.friends
  }

  /** No mentions; or, in a text in a group, at most fifty other members, and everybody only by those above a plain member. */
  predicate MentionsFit(s: State, actor: UserId, c: ConversationId, request: SendRequest) {
    (request.mentions == {} && !request.mentionAll)
    || (&& request.content.Text? && |request.mentions| <= 50
        && c in s.conversations && s.conversations[c].kind.Group? && actor in s.conversations[c].members
        && (forall u :: u in request.mentions ==> u in s.conversations[c].members && u != actor)
        && (request.mentionAll ==> s.conversations[c].members[actor].role != Member))
  }

  /** A member who is not muted, alone or with all plain members of the group. */
  predicate MayWrite(s: State, actor: UserId, c: ConversationId, now: Time) {
    && c in s.conversations && actor in s.conversations[c].members
    && var conversation := s.conversations[c];
    && (conversation.members[actor].mutedUntil.Some? ==> conversation.members[actor].mutedUntil.value <= now)
    && (conversation.kind.Group? && c in s.muteAll ==> conversation.members[actor].role != Member)
  }

  /** Friends who have not blocked each other, and for media a recipient who takes files. */
  predicate MayReach(s: State, actor: UserId, peer: UserId, content: Content) {
    && Befriended(s, actor, peer) && (actor, peer) !in s.blocks && (peer, actor) !in s.blocks
    && (content.Media? ==> (peer, actor) !in s.refusesFiles)
  }

  /** The other member of a direct conversation. */
  ghost predicate IsPeer(conversation: Conversation, actor: UserId, peer: UserId) {
    conversation.kind.Direct? && peer in conversation.members && peer != actor
    && forall u :: u in conversation.members && u != actor ==> peer <= u
  }

  predicate IsOwnUpload(s: State, actor: UserId, id: AttachmentId) {
    id in s.attachments && s.attachments[id].owner == actor && s.attachments[id].available
  }

  /** No bundle; media only from the sender's own finished upload, with its very metadata. */
  predicate MayAttach(s: State, actor: UserId, content: Content) {
    && !content.Bundle?
    && (content.Media? ==> IsOwnUpload(s, actor, content.attachment.id)
                           && s.attachments[content.attachment.id].attachment == content.attachment)
  }

  ghost predicate IsAcceptable(s: State, actor: UserId, c: ConversationId, request: SendRequest, now: Time) {
    && (request.expiresIn.Some? ==> 5 <= request.expiresIn.value <= 7 * 86400) && ContentIsValid(request.content)
    && MentionsFit(s, actor, c, request) && MayWrite(s, actor, c, now) && MayAttach(s, actor, request.content)
    && (s.conversations[c].kind.Direct? ==>
          exists p: UserId :: IsPeer(s.conversations[c], actor, p) && MayReach(s, actor, p, request.content))
  }

  lemma FriendsAreBefriended(s: State, a: UserId, b: UserId)
    requires a != b
    ensures AreFriends(s, a, b) <==> Befriended(s, a, b)
  {
    if AreFriends(s, a, b) {
      var pair :| pair in s.friends && Involves(pair, a) && Involves(pair, b);
      assert pair == (a, b) || pair == (b, a);
    }
    if Befriended(s, a, b) {
      var pair := if (a, b) in s.friends then (a, b) else (b, a);
      assert pair in s.friends && Involves(pair, a) && Involves(pair, b);
    }
  }

  lemma MentionsAreChecked(s: State, actor: UserId, c: ConversationId, request: SendRequest)
    ensures CheckMentions(s, actor, c, request).Ok? <==> MentionsFit(s, actor, c, request)
    ensures !MentionsFit(s, actor, c, request) ==> CheckMentions(s, actor, c, request) == Err(MentionError(s, actor, c, request))
  {
  }

  lemma AttachmentsAreChecked(s: State, actor: UserId, content: Content)
    ensures CheckAttachment(s, actor, content).Ok? <==> MayAttach(s, actor, content)
    ensures !MayAttach(s, actor, content) ==>
              CheckAttachment(s, actor, content)
              == Err(if content.Media? && IsOwnUpload(s, actor, content.attachment.id) then Invalid else Forbidden)
  {
  }

  lemma PeerIsFirst(conversation: Conversation, actor: UserId, p: UserId, q: UserId)
    requires conversation.kind.Direct?
    ensures IsPeer(conversation, actor, p) <==> IsFirstPeer(conversation.members, actor, p)
    ensures IsPeer(conversation, actor, p) && IsPeer(conversation, actor, q) ==> p == q
  {
  }

  lemma DirectRecipients(s: State, actor: UserId, c: ConversationId, content: Content, now: Time)
    requires MayWrite(s, actor, c, now) && s.conversations[c].kind.Direct?
    ensures var r := Recipients(s, actor, c, content, now);
            if exists p: UserId :: IsPeer(s.conversations[c], actor, p) && MayReach(s, actor, p, content)
            then r == Ok(s.conversations[c].members.Keys)
            else if exists p: UserId :: IsPeer(s.conversations[c], actor, p) then r == Err(Forbidden)
            else r == Err(NotFound)
  {
    var conversation := s.conversations[c];
    forall p: UserId ensures IsPeer(conversation, actor, p) <==> IsFirstPeer(conversation.members, actor, p) {
    }
    if p: UserId :| IsPeer(conversation, actor, p) {
      FriendsAreBefriended(s, actor, p);
      forall q: UserId | IsPeer(conversation, actor, q) ensures q == p {
        PeerIsFirst(conversation, actor, p, q);
      }
    }
  }

  lemma RecipientsAreExact(s: State, actor: UserId, c: ConversationId, content: Content, now: Time)
    ensures var r := Recipients(s, actor, c, content, now);
            && (r.Ok? <==> && MayWrite(s, actor, c, now)
                           && (s.conversations[c].kind.Direct? ==>
                                 exists p: UserId :: IsPeer(s.conversations[c], actor, p) && MayReach(s, actor, p, content)))
            && (r.Ok? ==> r.value == s.conversations[c].members.Keys)
            && (r.Err? ==> r.error == if c !in s.conversations then NotFound
                                      else if !MayWrite(s, actor, c, now) then Forbidden
                                      else if forall p: UserId :: !IsPeer(s.conversations[c], actor, p) then NotFound
                                      else Forbidden)
  {
    if MayWrite(s, actor, c, now) && s.conversations[c].kind.Direct? {
      DirectRecipients(s, actor, c, content, now);
    }
  }

  /** A message under a key the server does not know is accepted exactly when it is acceptable. */
  lemma SendIsAcceptedExactly(s: State, actor: UserId, c: ConversationId, request: SendRequest, id: MessageId, now: Time)
    requires (actor, request.clientId) !in s.dedup
    ensures SendMessage(s, actor, c, request, id, now).Ok? <==> IsAcceptable(s, actor, c, request, now)
  {
    MentionsAreChecked(s, actor, c, request);
    RecipientsAreExact(s, actor, c, request.content, now);
    AttachmentsAreChecked(s, actor, request.content);
    var recipients := Recipients(s, actor, c, request.content, now);
    if recipients.Ok? {
      PostingIsChecked(s, actor, c, request, id, recipients.value, now);
    }
  }

  function MentionError(s: State, actor: UserId, c: ConversationId, request: SendRequest): Error {
    if !request.content.Text? || |request.mentions| > 50 then Invalid
    else if c !in s.conversations || !s.conversations[c].kind.Group? then NotFound
    else if actor !in s.conversations[c].members then Forbidden
    else if exists u :: u in request.mentions && (u == actor || u !in s.conversations[c].members) then Invalid
    else Forbidden
  }

  /** A refusal names the first thing that is wrong: the expiry, the mentions, the conversation, the right to write there, the
      peer, the attachment, the content. */
  lemma RefusalsNameTheFirstFault(s: State, actor: UserId, c: ConversationId, request: SendRequest, id: MessageId, now: Time)
    requires (actor, request.clientId) !in s.dedup && SendMessage(s, actor, c, request, id, now).Err?
    ensures SendMessage(s, actor, c, request, id, now).error
            == if !ExpiryInRange(request.expiresIn) then Invalid
               else if !MentionsFit(s, actor, c, request) then MentionError(s, actor, c, request)
               else if c !in s.conversations then NotFound
               else if !MayWrite(s, actor, c, now) then Forbidden
               else if s.conversations[c].kind.Direct? && forall p: UserId :: !IsPeer(s.conversations[c], actor, p) then NotFound
               else if s.conversations[c].kind.Direct?
                       && forall p: UserId :: IsPeer(s.conversations[c], actor, p) ==> !MayReach(s, actor, p, request.content)
               then Forbidden
               else if request.content.Bundle? then Forbidden
               else if request.content.Media? && !IsOwnUpload(s, actor, request.content.attachment.id) then Forbidden
               else Invalid
  {
    MentionsAreChecked(s, actor, c, request);
    RecipientsAreExact(s, actor, c, request.content, now);
    AttachmentsAreChecked(s, actor, request.content);
    var recipients := Recipients(s, actor, c, request.content, now);
    if recipients.Ok? {
      PostingFails(s, actor, c, request, id, recipients.value, now);
    }
  }

  lemma PostingFails(s: State, actor: UserId, c: ConversationId, request: SendRequest, id: MessageId, recipients: set<UserId>,
                     now: Time)
    ensures var r := Post(s, actor, c, request, id, recipients, now); r.Err? ==> r.error == Invalid
  {
  }

  /** Between two people: exactly friends who have not blocked each other reach one another. */
  lemma BlockedCannotSend(s: State, actor: UserId, peer: UserId, c: ConversationId, request: SendRequest, id: MessageId, now: Time)
    requires c in s.conversations && s.conversations[c].kind.Direct? && s.conversations[c].members.Keys == {actor, peer}
    requires actor != peer && (actor, request.clientId) !in s.dedup
    ensures SendMessage(s, actor, c, request, id, now).Ok? ==>
              Befriended(s, actor, peer) && (actor, peer) !in s.blocks && (peer, actor) !in s.blocks
  {
    SendIsAcceptedExactly(s, actor, c, request, id, now);
    assert peer in s.conversations[c].members.Keys;
    assert forall u :: u in s.conversations[c].members ==> u in {actor, peer};
    assert IsPeer(s.conversations[c], actor, peer);
    if p: UserId :| IsPeer(s.conversations[c], actor, p) && MayReach(s, actor, p, request.content) {
      PeerIsFirst(s.conversations[c], actor, p, peer);
    }
  }

  // ----- what is valid, and what is stored -----

  /** Texts of up to ten thousand characters, not all blank; files that are not empty; stickers with a name of up to forty-eight;
      bundles of two to a hundred messages that are neither bundles nor notices, with sender names of up to eighty. */
  lemma ContentRules(content: Content)
    ensures ContentIsValid(content) <==>
              match content
              case Text(text) => |text| <= 10000 && exists c :: c in text && c !in [' ', '\t', '\r', '\n']
              case Media(media, attachment) =>
                attachment.byteSize > 0
                && (media.Sticker? ==> |media.name| <= 48 && exists c :: c in media.name && c !in [' ', '\t', '\r', '\n'])
              case Bundle(messages) =>
                2 <= |messages| <= 100
                && forall m :: m in messages ==>
                     && !m.content.System? && !m.content.Bundle? && |m.senderName| <= 80
                     && exists c :: c in m.senderName && c !in [' ', '\t', '\r', '\n']
              case System(_) => true
  {
  }

  /** A message goes out pending, is acknowledged once, from pending or failed, and keeps its identity and content. */
  lemma AcknowledgedOnce(message: Message, sequence: nat, serverTime: Time, again: nat, later: Time)
    ensures MarkSent(message, sequence, serverTime).Ok? <==> message.status == Status.Pending || message.status == Status.Failed
    ensures MarkSent(message, sequence, serverTime).Ok? ==>
              var sent := MarkSent(message, sequence, serverTime).value;
              && sent.status == Status.Sent && sent.sequence == Some(sequence) && sent.serverCreatedAt == Some(serverTime)
              && sent.id == message.id && sent.clientId == message.clientId && sent.content == message.content
              && MarkSent(sent, again, later) == Err(Invalid)
  {
  }

  /** All that a first send changes: the message at the end of its log, as it was written; its key, receipt and expiry; the time
      of the conversation; and one event for the members. */
  lemma AcceptedSendIsExact(s: State, actor: UserId, c: ConversationId, request: SendRequest, id: MessageId, now: Time)
    requires Inv(s) && IsFresh(s, id) && (actor, request.clientId) !in s.dedup
    requires SendMessage(s, actor, c, request, id, now).Ok? && c in s.conversations
    ensures var t := SendMessage(s, actor, c, request, id, now).value.0;
            var n := |LogOf(s.logs, c)| + 1;
            var m := Message(id, request.clientId, c, actor, Some(n), request.content, Status.Sent, request.mentions,
                             request.mentionAll, now, Some(now));
            && t.logs == s.logs[c := LogOf(s.logs, c) + [m]]
            && t.dedup == s.dedup[(actor, request.clientId) := (id, n)]
            && t.receipts == s.receipts[id := Receipt({actor}, {})]
            && t.expirations == (if request.expiresIn.Some? then s.expirations[id := now + request.expiresIn.value] else s.expirations)
            && t.conversations == s.conversations[c := s.conversations[c].(updatedAt := now)]
            && t.events == s.events + [UserEvent(s.conversations[c].members.Keys, Event(s.cursor + 1, MessageCreated(m), now))]
            && t == s.(logs := t.logs, dedup := t.dedup, receipts := t.receipts, expirations := t.expirations,
                       conversations := t.conversations, events := t.events, cursor := s.cursor + 1)
  {
    LastIsLength(s.logs, c);
    RecipientsAreExact(s, actor, c, request.content, now);
    assert {} + {actor} == {actor};
  }

  // ----- one send decides nothing about the next -----

  /** The two states decide alike on every message whose key neither knows. */
  ghost predicate SendsAlike(s: State, t: State) {
    && t.friends == s.friends && t.blocks == s.blocks && t.refusesFiles == s.refusesFiles
    && t.muteAll == s.muteAll && t.attachments == s.attachments
    && t.conversations.Keys == s.conversations.Keys
    && forall c :: c in s.conversations ==> AreAlike(s.conversations[c], t.conversations[c])
  }

  predicate AreAlike(a: Conversation, b: Conversation) {
    b.kind == a.kind && b.members == a.members
  }

  lemma AlikeRecipients(s: State, t: State, actor: UserId, c: ConversationId, content: Content, now: Time)
    requires SendsAlike(s, t) && Recipients(s, actor, c, content, now).Ok?
    ensures Recipients(t, actor, c, content, now).Ok?
  {
    assert AreAlike(s.conversations[c], t.conversations[c]);
    var members := s.conversations[c].members;
    forall p: UserId, q: UserId | IsFirstPeer(members, actor, p) && IsFirstPeer(members, actor, q) ensures p == q {
    }
  }

  lemma AlikeChecks(s: State, t: State, actor: UserId, c: ConversationId, request: SendRequest)
    requires SendsAlike(s, t)
    ensures CheckMentions(t, actor, c, request) == CheckMentions(s, actor, c, request)
    ensures CheckAttachment(t, actor, request.content) == CheckAttachment(s, actor, request.content)
  {
    if c in s.conversations {
      assert AreAlike(s.conversations[c], t.conversations[c]);
    }
  }

  /** Whether a message can be posted depends on its content alone. */
  lemma PostingIsChecked(s: State, actor: UserId, c: ConversationId, request: SendRequest, id: MessageId, recipients: set<UserId>,
                         now: Time)
    ensures Post(s, actor, c, request, id, recipients, now).Ok? <==> ContentIsValid(request.content)
  {
  }

  lemma AlikeSends(s: State, t: State, actor: UserId, c: ConversationId, request: SendRequest, id: MessageId, other: MessageId,
                   now: Time)
    requires SendsAlike(s, t) && (actor, request.clientId) !in s.dedup && (actor, request.clientId) !in t.dedup
    requires SendMessage(s, actor, c, request, id, now).Ok?
    ensures SendMessage(t, actor, c, request, other, now).Ok?
  {
    AlikeRecipients(s, t, actor, c, request.content, now);
    AlikeChecks(s, t, actor, c, request);
    PostingIsChecked(s, actor, c, request, id, Recipients(s, actor, c, request.content, now).value, now);
    PostingIsChecked(t, actor, c, request, other, Recipients(t, actor, c, request.content, now).value, now);
  }

  lemma TouchingLeavesAlike(s: State, t: State, c: ConversationId, now: Time)
    requires t.friends == s.friends && t.blocks == s.blocks && t.refusesFiles == s.refusesFiles
    requires t.muteAll == s.muteAll && t.attachments == s.attachments && t.conversations == Touched(s.conversations, c, now)
    ensures SendsAlike(s, t)
  {
  }

  lemma PostingLeavesAlike(s: State, actor: UserId, c: ConversationId, request: SendRequest, id: MessageId,
                           recipients: set<UserId>, now: Time)
    ensures var r := Post(s, actor, c, request, id, recipients, now); r.Ok? ==> SendsAlike(s, r.value.0)
  {
    var r := Post(s, actor, c, request, id, recipients, now);
    if r.Ok? {
      TouchingLeavesAlike(s, r.value.0, c, now);
    }
  }

  /** Sending one message decides nothing about the next. */
  lemma SendingLeavesAlike(s: State, actor: UserId, c: ConversationId, request: SendRequest, id: MessageId, now: Time)
    ensures var r := SendMessage(s, actor, c, request, id, now); r.Ok? ==> SendsAlike(s, r.value.0)
  {
    if (actor, request.clientId) !in s.dedup && SendMessage(s, actor, c, request, id, now).Ok? {
      PostingLeavesAlike(s, actor, c, request, id, Recipients(s, actor, c, request.content, now).value, now);
    }
  }

  lemma AlikeJoins(s: State, t: State, u: State)
    requires SendsAlike(s, t) && SendsAlike(t, u)
    ensures SendsAlike(s, u)
  {
    forall c | c in s.conversations ensures AreAlike(s.conversations[c], u.conversations[c]) {
      assert AreAlike(s.conversations[c], t.conversations[c]) && AreAlike(t.conversations[c], u.conversations[c]);
    }
  }

  lemma AlikeIsSymmetric(s: State, t: State)
    requires SendsAlike(s, t)
    ensures SendsAlike(t, s)
  {
    forall c | c in s.conversations ensures AreAlike(t.conversations[c], s.conversations[c]) {
      assert AreAlike(s.conversations[c], t.conversations[c]);
    }
  }

  /** The ids a store has in use are finitely many. */
  lemma FreshId(s: State) returns (id: MessageId)
    ensures IsFresh(s, id)
  {
    var used := set c, i | c in s.logs && 0 <= i < |s.logs[c]| :: s.logs[c][i].id;
    assert forall c, i: nat :: c in s.logs && i < |s.logs[c]| ==> s.logs[c][i].id in used;
    id := SomethingNew(s.receipts.Keys + used);
  }

  /** What a store accepts, or has accepted, it still accepts after any sends of others. */
  lemma StillAccepts(s: State, t: State, actor: UserId, c: ConversationId, request: SendRequest, id: MessageId, other: MessageId,
                     now: Time)
    requires Inv(t) && SendsAlike(s, t) && DeliveredGrows(s, t) && SendMessage(s, actor, c, request, id, now).Ok?
    ensures SendMessage(t, actor, c, request, other, now).Ok?
  {
    if (actor, request.clientId) in t.dedup {
      KnownKeyIsAnswered(t, actor, c, request, other, now);
    } else {
      AlikeSends(s, t, actor, c, request, id, other, now);
    }
  }

  /** The server accepts this message, under a fresh id or because it knows its key. */
  ghost predicate Accepts(s: State, actor: UserId, c: ConversationId, request: SendRequest, now: Time) {
    exists id: MessageId :: IsFresh(s, id) && SendMessage(s, actor, c, request, id, now).Ok?
  }

  lemma AcceptsAnyId(s: State, actor: UserId, c: ConversationId, request: SendRequest, id: MessageId, now: Time)
    requires Inv(s)
    ensures Accepts(s, actor, c, request, now) <==> SendMessage(s, actor, c, request, id, now).Ok?
  {
    AlikeIsReflexive(s);
    if Accepts(s, actor, c, request, now) {
      var known: MessageId :| IsFresh(s, known) && SendMessage(s, actor, c, request, known, now).Ok?;
      StillAccepts(s, s, actor, c, request, known, id, now);
    }
    if SendMessage(s, actor, c, request, id, now).Ok? {
      var other := FreshId(s);
      StillAccepts(s, s, actor, c, request, id, other, now);
      assert IsFresh(s, other);
    }
  }

  lemma AlikeIsReflexive(s: State)
    ensures SendsAlike(s, s)
  {
  }

  /** A send files its own key and no other. */
  lemma SendFilesItsKey(s: State, actor: UserId, c: ConversationId, request: SendRequest, id: MessageId, now: Time)
    requires Inv(s) && IsFresh(s, id) && SendMessage(s, actor, c, request, id, now).Ok?
    ensures SendMessage(s, actor, c, request, id, now).value.0.dedup.Keys == s.dedup.Keys + {(actor, request.clientId)}
  {
    if (actor, request.clientId) in s.dedup {
      KnownKeyIsAnswered(s, actor, c, request, id, now);
    }
  }

  lemma AcceptAlike(s: State, t: State, actor: UserId, c: ConversationId, request: SendRequest, now: Time)
    requires Inv(s) && Inv(t) && SendsAlike(s, t) && ((actor, request.clientId) in s.dedup <==> (actor, request.clientId) in t.dedup)
    ensures Accepts(s, actor, c, request, now) <==> Accepts(t, actor, c, request, now)
  {
    AlikeIsSymmetric(s, t);
    var id := FreshId(s);
    AcceptsAnyId(s, actor, c, request, id, now);
    AcceptsAnyId(t, actor, c, request, id, now);
    if (actor, request.clientId) in s.dedup {
      if ExpiryInRange(request.expiresIn) {
        KnownKeyIsAnswered(s, actor, c, request, id, now);
        KnownKeyIsAnswered(t, actor, c, request, id, now);
      }
    } else if SendMessage(s, actor, c, request, id, now).Ok? {
      AlikeSends(s, t, actor, c, request, id, id, now);
    } else if SendMessage(t, actor, c, request, id, now).Ok? {
      AlikeSends(t, s, actor, c, request, id, id, now);
    }
  }

  // ----- the keys several sends file -----

  /** After `n` sends the known keys are those known before and those of the sends that arrived. */
  ghost predicate IsTally<K(!new)>(before: set<K>, after: set<K>, ready: seq<K>, arrivals: seq<bool>, n: nat)
    requires n <= |ready| == |arrivals|
  {
    forall key :: key in after <==> key in before || exists k :: 0 <= k < n && ready[k] == key && arrivals[k]
  }

  lemma TallyGrows<K(!new)>(before: set<K>, after: set<K>, later: set<K>, ready: seq<K>,
                   arrivals: seq<bool>, n: nat)
    requires n < |ready| == |arrivals| && IsTally(before, after, ready, arrivals, n)
    requires later == if arrivals[n] then after + {ready[n]} else after
    ensures IsTally(before, later, ready, arrivals, n + 1)
  {
  }

  lemma NotYetTallied<K(!new)>(before: set<K>, after: set<K>, ready: seq<K>, arrivals: seq<bool>, n: nat)
    requires n < |ready| == |arrivals| && IsTally(before, after, ready, arrivals, n)
    requires forall i, j :: 0 <= i < j < |ready| ==> ready[i] != ready[j]
    ensures ready[n] in after <==> ready[n] in before
  {
  }
}
