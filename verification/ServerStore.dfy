/** The server store as the object it is: operations edit its fields step by step under one lock,
    and `Mutate` commits the result or puts the old fields back. */
module ServerStore {
  import opened Domain
  import opened Membership
  import opened ServerState
  import opened ServerInvariants
  import opened ServerRuns
  import opened Sending
  import opened ServerEffects

  lemma {:induction false} SourcesFail(s: State, actor: UserId, ids: seq<MessageId>, merged: bool, k: nat)
    requires k < |ids| && Source(s, actor, ids[k], merged).Err?
    requires forall j :: 0 <= j < k ==> Source(s, actor, ids[j], merged).Ok?
    ensures Sources(s, actor, ids, merged) == Err(Source(s, actor, ids[k], merged).error)
  {
    if k > 0 {
      SourcesFail(s, actor, ids[1..], merged, k - 1);
    }
  }

  lemma {:induction false} SourcesSucceed(s: State, actor: UserId, ids: seq<MessageId>, merged: bool, sources: seq<Forwarded>)
    requires |sources| == |ids| && forall j :: 0 <= j < |ids| ==> Source(s, actor, ids[j], merged) == Ok(sources[j])
    ensures Sources(s, actor, ids, merged) == Ok(sources)
  {
    if ids != [] {
      SourcesSucceed(s, actor, ids[1..], merged, sources[1..]);
      assert [sources[0]] + sources[1..] == sources;
    }
  }

  ghost predicate Appended(r: Result<seq<Message>>, after: State, spec: Result<(State, seq<Message>)>) {
    if spec.Ok? then r == Ok(spec.value.1) && after == spec.value.0 else r == Err(spec.error)
  }

  /** All of what an operation specifies is kept and its new events are published, or nothing is. */
  ghost predicate Transacts(before: State, after: State, spec: Outcome, persisted: bool, r: Result<Reply>,
                            published: seq<UserEvent>)
  {
    if spec.Ok? && persisted
    then r == Ok(spec.value.1) && after == spec.value.0 && after.events == before.events + published
    else after == before && published == [] && r == Err(if spec.Err? then spec.error else Error.Storage)
  }

  /** What `Conclude` does with an attempt that left the fields at `executed`. */
  ghost predicate Concludes(start: State, executed: State, final: State, attempted: Result<Reply>, persisted: bool,
                            r: Result<Reply>, published: seq<UserEvent>)
  {
    if attempted.Ok? && persisted
    then r == attempted && final == executed && |start.events| <= |executed.events|
         && published == executed.events[|start.events|..]
    else final == start && published == [] && r == Err(if attempted.Err? then attempted.error else Error.Storage)
  }

  lemma MutateTransacts(start: State, executed: State, final: State, spec: Outcome, attempted: Result<Reply>, persisted: bool,
                        r: Result<Reply>, published: seq<UserEvent>)
    requires Agrees(attempted, executed, spec) && Concludes(start, executed, final, attempted, persisted, r, published)
    requires attempted.Ok? ==> start.events <= executed.events
    ensures Transacts(start, final, spec, persisted, r, published)
  {
  }

  class Store {
    var accounts: map<UserId, Account>
    var friends: set<(UserId, UserId)>
    var blocks: set<(UserId, UserId)>
    var refusesFiles: set<(UserId, UserId)>
    var conversations: map<ConversationId, Conversation>
    var settings: map<(UserId, ConversationId), Settings>
    var muteAll: set<ConversationId>
    var joinRequests: map<RequestId, JoinRequest>
    var logs: map<ConversationId, seq<Message>>
    var dedup: map<(UserId, MessageId), (MessageId, nat)>
    var receipts: map<MessageId, Receipt>
    var expirations: map<MessageId, Time>
    var scheduled: seq<Scheduled>
    var attachments: map<AttachmentId, StoredAttachment>
    var readPositions: map<(UserId, ConversationId), nat>
    var events: seq<UserEvent>
    var cursor: nat

    function Value(): State
      reads this
    {
      State(accounts, friends, blocks, refusesFiles, conversations, settings, muteAll, joinRequests, logs, dedup, receipts,
            expirations, scheduled, attachments, readPositions, events, cursor)
    }

    constructor ()
      ensures Value() == EMPTY && Inv(Value())
    {
      accounts, friends, blocks, refusesFiles := map[], {}, {}, {};
      conversations, settings, muteAll, joinRequests := map[], map[], {}, map[];
      logs, dedup, receipts, expirations := map[], map[], map[], map[];
      scheduled, attachments, readPositions, events, cursor := [], map[], map[], [], 0;
    }

    method Restore(s: State)
      modifies this
      ensures Value() == s
    {
      RestorePeople(s);
      RestoreRooms(s);
      RestoreMessages(s);
      RestoreTimers(s);
      RestoreSync(s);
    }

    method RestorePeople(s: State)
      modifies this`accounts, this`friends, this`blocks, this`refusesFiles
      ensures Value() == old(Value()).(accounts := s.accounts, friends := s.friends, blocks := s.blocks, refusesFiles := s.refusesFiles)
    {
      accounts := s.accounts;
      friends := s.friends;
      blocks := s.blocks;
      refusesFiles := s.refusesFiles;
    }

    method RestoreRooms(s: State)
      modifies this`conversations, this`settings, this`muteAll, this`joinRequests
      ensures Value() == old(Value()).(conversations := s.conversations, settings := s.settings, muteAll := s.muteAll, joinRequests := s.joinRequests)
    {
      conversations := s.conversations;
      settings := s.settings;
      muteAll := s.muteAll;
      joinRequests := s.joinRequests;
    }

    method RestoreMessages(s: State)
      modifies this`logs, this`dedup, this`receipts
      ensures Value() == old(Value()).(logs := s.logs, dedup := s.dedup, receipts := s.receipts)
    {
      logs := s.logs;
      dedup := s.dedup;
      receipts := s.receipts;
    }

    method RestoreTimers(s: State)
      modifies this`expirations, this`scheduled, this`attachments
      ensures Value() == old(Value()).(expirations := s.expirations, scheduled := s.scheduled, attachments := s.attachments)
    {
      expirations := s.expirations;
      scheduled := s.scheduled;
      attachments := s.attachments;
    }

    method RestoreSync(s: State)
      modifies this`readPositions, this`events, this`cursor
      ensures Value() == old(Value()).(readPositions := s.readPositions, events := s.events, cursor := s.cursor)
    {
      readPositions := s.readPositions;
      events := s.events;
      cursor := s.cursor;
    }

    // ----- lookups -----

    method Lookup(id: MessageId) returns (r: Result<Message>)
      requires UniqueIds(logs)
      ensures r == FindMessage(logs, id)
    {
      var rest := logs.Keys;
      while rest != {}
        invariant rest <= logs.Keys
        invariant forall c, i: nat :: c in logs && c !in rest ==> !HoldsAt(logs, c, i, id)
      {
        var c :| c in rest;
        for i := 0 to |logs[c]|
          invariant forall j: nat :: j < i ==> !HoldsAt(logs, c, j, id)
        {
          if logs[c][i].id == id {
            FindIsExact(logs, c, i, id);
            return Ok(logs[c][i]);
          }
        }
        rest := rest - {c};
      }
      return Err(NotFound);
    }

    method PeerOf(conversation: Conversation, actor: UserId) returns (peer: Option<UserId>)
      ensures peer.None? ==> forall p: UserId :: !IsFirstPeer(conversation.members, actor, p)
      ensures peer.Some? ==> IsFirstPeer(conversation.members, actor, peer.value)
    {
      var others := conversation.members.Keys - {actor};
      if others == {} {
        assert forall u :: u in conversation.members && u != actor ==> u in others;
        return None;
      }
      var least := Least(others);
      assert forall u :: u in conversation.members && u != actor ==> u in others;
      return Some(least);
    }

    // ----- building blocks -----

    method AppendEvent(recipients: set<UserId>, body: EventBody, now: Time)
      modifies this`cursor, this`events
      ensures Value() == Publish(old(Value()), recipients, body, now)
    {
      cursor := cursor + 1;
      events := events + [UserEvent(recipients, Event(cursor, body, now))];
    }

    method PushMessage(message: Message)
      modifies this`logs
      ensures Value() == Append(old(Value()), message)
    {
      var log := if message.conversation in logs then logs[message.conversation] else [];
      logs := logs[message.conversation := log + [message]];
    }

    method FileUnderKey(message: Message, sequence: nat)
      modifies this`dedup, this`receipts
      ensures Value() == FileMessage(old(Value()), message, sequence)
    {
      dedup := dedup[(message.sender, message.clientId) := (message.id, sequence)];
      var receipt := if message.id in receipts then receipts[message.id] else NO_RECEIPT;
      receipts := receipts[message.id := receipt.(deliveredTo := receipt.deliveredTo + {message.sender})];
    }

    method TouchConversation(c: ConversationId, now: Time)
      modifies this`conversations
      ensures Value() == Touch(old(Value()), c, now)
    {
      if c in conversations {
        conversations := conversations[c := conversations[c].(updatedAt := now)];
      }
    }

    method AppendSystemMessage(c: ConversationId, actor: UserId, notice: Notice, minted: Minted, now: Time) returns (r: Result<()>)
      modifies this`logs, this`conversations, this`events, this`cursor
      ensures var spec := PostNotice(old(Value()), c, actor, notice, minted, now);
              if spec.Ok? then r.Ok? && Value() == spec.value else r == Err(spec.error)
    {
      if c !in conversations {
        return Err(NotFound);
      }
      var recipients := conversations[c].members.Keys;
      var sequence := LastSequence(LogOf(logs, c)) + 1;
      var message := PendingMessage(minted.id, minted.clientId, c, actor, System(notice), now).value;
      message := MarkSent(message, sequence, now).value;
      PushMessage(message);
      TouchConversation(c, now);
      AppendEvent(recipients, MessageCreated(message), now);
      return Ok(());
    }

    method AnnounceChange(c: ConversationId, actor: UserId, notice: Notice, minted: Minted, recipients: set<UserId>, now: Time)
      returns (r: Result<Reply>)
      modifies this`logs, this`conversations, this`events, this`cursor
      ensures Agrees(r, Value(), Announce(old(Value()), c, actor, notice, minted, recipients, now))
    {
      var _ :- AppendSystemMessage(c, actor, notice, minted, now);
      AppendEvent(recipients, MembershipUpdated(c), now);
      return Ok(Done);
    }

    method InsertConversation(c: ConversationId, conversation: Conversation)
      modifies this`settings, this`conversations
      ensures Value() == StoreConversation(old(Value()), c, conversation)
    {
      var rest := conversation.members.Keys;
      while rest != {}
        invariant rest <= conversation.members.Keys && conversations == old(conversations)
        invariant forall k :: k in settings <==> k in old(settings) || (k.1 == c && k.0 in conversation.members && k.0 !in rest)
        invariant forall k :: k in settings ==> settings[k] == if k in old(settings) then old(settings)[k] else DEFAULT_SETTINGS
      {
        var user :| user in rest;
        if (user, c) !in settings {
          settings := settings[(user, c) := DEFAULT_SETTINGS];
        }
        rest := rest - {user};
      }
      assert settings == Defaults(NewKeys(c, conversation.members.Keys)) + old(settings);
      conversations := conversations[c := conversation];
    }

    // ----- sending -----

    method SendInStore(actor: UserId, c: ConversationId, request: SendRequest, id: MessageId, now: Time) returns (r: Result<Reply>)
      requires UniqueIds(logs)
      modifies this
      ensures Agrees(r, Value(), SendMessage(old(Value()), actor, c, request, id, now))
    {
      var _ :- Need(ExpiryInRange(request.expiresIn), Invalid);
      if (actor, request.clientId) in dedup {
        var (known, sequence) := dedup[(actor, request.clientId)];
        var existing :- Lookup(known);
        return Ok(Acknowledged(existing, known, sequence));
      }
      var _ :- CheckMentions(Value(), actor, c, request);
      var recipients :- RecipientsOf(actor, c, request.content, now);
      var _ :- CheckAttachment(Value(), actor, request.content);
      r := PostInStore(actor, c, request, id, recipients, now);
    }

    method RecipientsOf(actor: UserId, c: ConversationId, content: Content, now: Time) returns (r: Result<set<UserId>>)
      ensures r == Recipients(Value(), actor, c, content, now)
      ensures r.Ok? <==>
                && MayWrite(Value(), actor, c, now)
                && (conversations[c].kind.Direct? ==>
                      exists p: UserId :: IsPeer(conversations[c], actor, p) && MayReach(Value(), actor, p, content))
      ensures r.Ok? ==> r.value == conversations[c].members.Keys
    {
      RecipientsAreExact(Value(), actor, c, content, now);
      var conversation :- Find(Value(), c);
      var _ :- Need(conversation.CanSend(actor, now), Forbidden);
      if conversation.kind.Group? {
        var _ :- Need(!(c in muteAll && conversation.HasRole(actor, Member)), Forbidden);
      } else {
        var found := PeerOf(conversation, actor);
        if found.None? {
          return Err(NotFound);
        }
        var peer := found.value;
        forall p: UserId | IsFirstPeer(conversation.members, actor, p) ensures p == peer {
        }
        var _ :- Need(AreFriends(Value(), actor, peer) && (actor, peer) !in blocks && (peer, actor) !in blocks, Forbidden);
        var _ :- Need(!(content.Media? && (peer, actor) in refusesFiles), Forbidden);
      }
      return Ok(conversation.members.Keys);
    }

    method SetExpiry(id: MessageId, expiresIn: Option<nat>, now: Time)
      modifies this`expirations
      ensures expirations == Timed(old(expirations), id, expiresIn, now)
    {
      if expiresIn.Some? {
        expirations := expirations[id := now + expiresIn.value];
      }
    }

    method PostInStore(actor: UserId, c: ConversationId, request: SendRequest, id: MessageId, recipients: set<UserId>, now: Time)
      returns (r: Result<Reply>)
      modifies this
      ensures Agrees(r, Value(), Post(old(Value()), actor, c, request, id, recipients, now))
    {
      var sequence := LastSequence(LogOf(logs, c)) + 1;
      var message :- PendingMessage(id, request.clientId, c, actor, request.content, now);
      message := message.(mentions := request.mentions, mentionAll := request.mentionAll);
      message := MarkSent(message, sequence, now).value;
      PushMessage(message);
      FileUnderKey(message, sequence);
      SetExpiry(id, request.expiresIn, now);
      TouchConversation(c, now);
      AppendEvent(recipients, MessageCreated(message), now);
      return Ok(Acknowledged(message, id, sequence));
    }

    // ----- forwarding -----

    method SourceOf(actor: UserId, id: MessageId, merged: bool) returns (r: Result<Forwarded>)
      requires UniqueIds(logs)
      ensures r == Source(Value(), actor, id, merged)
    {
      var message :- Lookup(id);
      var conversation :- Find(Value(), message.conversation);
      var _ :- Need(conversation.CanRead(actor) && !message.content.System?, Forbidden);
      var _ :- Need(!(merged && message.content.Bundle?), Invalid);
      var name := if message.sender in accounts then accounts[message.sender].nickname else DELETED_NICKNAME;
      return Ok(Forwarded(message.sender, name, message.content, message.serverCreatedAt.GetOr(message.createdAt)));
    }

    method CollectSources(actor: UserId, ids: seq<MessageId>, merged: bool) returns (r: Result<seq<Forwarded>>)
      requires UniqueIds(logs)
      ensures r == Sources(Value(), actor, ids, merged)
    {
      var sources: seq<Forwarded> := [];
      ghost var s := Value();
      for i := 0 to |ids|
        invariant Value() == s && UniqueIds(logs)
        invariant |sources| == i && forall j :: 0 <= j < i ==> Source(s, actor, ids[j], merged) == Ok(sources[j])
      {
        var source := SourceOf(actor, ids[i], merged);
        if source.Err? {
          SourcesFail(s, actor, ids, merged, i);
          return Err(source.error);
        }
        sources := sources + [source.value];
      }
      SourcesSucceed(s, actor, ids, merged, sources);
      return Ok(sources);
    }

    method AppendForwardedMessage(actor: UserId, c: ConversationId, content: Content, minted: Minted, sequence: nat,
                                  recipients: set<UserId>, now: Time) returns (r: Result<Message>)
      modifies this`logs, this`dedup, this`receipts, this`events, this`cursor
      ensures var spec := AppendForwarded(old(Value()), actor, c, content, minted, sequence, recipients, now);
              if spec.Ok? then r == Ok(spec.value.1) && Value() == spec.value.0 else r == Err(spec.error)
    {
      var message :- PendingMessage(minted.id, minted.clientId, c, actor, content, now);
      message := MarkSent(message, sequence, now).value;
      PushMessage(message);
      FileUnderKey(message, sequence);
      AppendEvent(recipients, MessageCreated(message), now);
      return Ok(message);
    }

    method ForwardInStore(actor: UserId, ids: seq<MessageId>, c: ConversationId, merged: bool, minteds: seq<Minted>, now: Time)
      returns (r: Result<Reply>)
      requires |minteds| == |ids| && UniqueIds(logs)
      modifies this
      ensures Agrees(r, Value(), Forwards(old(Value()), actor, ids, c, merged, minteds, now))
    {
      var _ :- Need(1 <= |ids| <= 100 && Distinct(ids), Invalid);
      var _ :- Need(merged ==> |ids| >= 2, Invalid);
      var sources :- CollectSources(actor, ids, merged);
      var target :- Find(Value(), c);
      var _ :- Need(target.CanSend(actor, now), Forbidden);
      var recipients := target.members.Keys;
      var contents := ForwardContents(sources, merged);
      var messages :- AppendAllForwarded(actor, c, contents, minteds, LastSequence(LogOf(logs, c)), recipients, now);
      TouchConversation(c, now);
      return Ok(Messages(messages));
    }

    /** One round of the forwarding loop: `spec` is what the whole loop must produce, `done` what it has produced. */
    method ForwardNext(actor: UserId, c: ConversationId, rest: seq<Content>, ids: seq<Minted>, sequence: nat,
                       recipients: set<UserId>, now: Time,
                       ghost spec: Result<(State, seq<Message>)>, ghost done: seq<Message>) returns (r: Result<Message>)
      requires |ids| >= |rest| > 0 && sequence > 0
      requires Continues(spec, done, Value(), actor, c, rest, ids, sequence - 1, recipients, now)
      modifies this`logs, this`dedup, this`receipts, this`events, this`cursor
      ensures r.Err? ==> spec == Err(r.error)
      ensures r.Ok? ==> Continues(spec, done + [r.value], Value(), actor, c, rest[1..], ids[1..], sequence, recipients, now)
    {
      AppendAllUnfolds(spec, done, Value(), actor, c, rest, ids, sequence - 1, recipients, now);
      r := AppendForwardedMessage(actor, c, rest[0], ids[0], sequence, recipients, now);
    }

    method AppendAllForwarded(actor: UserId, c: ConversationId, contents: seq<Content>, minteds: seq<Minted>, last: nat,
                              recipients: set<UserId>, now: Time) returns (r: Result<seq<Message>>)
      requires |minteds| >= |contents|
      modifies this`logs, this`dedup, this`receipts, this`events, this`cursor
      ensures Appended(r, Value(), AppendAll(old(Value()), actor, c, contents, minteds, last, recipients, now))
    {
      var sequence := last;
      var forwarded: seq<Message> := [];
      ghost var spec := AppendAll(Value(), actor, c, contents, minteds, sequence, recipients, now);
      AppendAllStarts(Value(), actor, c, contents, minteds, sequence, recipients, now);
      var rest, ids := contents, minteds;
      while rest != []
        invariant |ids| >= |rest|
        invariant Continues(spec, forwarded, Value(), actor, c, rest, ids, sequence, recipients, now)
        decreases |rest|
      {
        sequence := sequence + 1;
        var message :- ForwardNext(actor, c, rest, ids, sequence, recipients, now, spec, forwarded);
        forwarded := forwarded + [message];
        rest, ids := rest[1..], ids[1..];
      }
      AppendAllEnds(spec, forwarded, Value(), actor, c, ids, sequence, recipients, now);
      return Ok(forwarded);
    }

    // ----- relations and conversations -----

    method RegisterInStore(user: UserId, nickname: string) returns (r: Result<Reply>)
      modifies this`accounts
      ensures Agrees(r, Value(), RegisterAccount(old(Value()), user, nickname))
    {
      if user in accounts {
        return Err(AccountConflict);
      }
      accounts := accounts[user := Account(nickname, false)];
      return Ok(Done);
    }

    method ReplaceRelationsInStore(newFriends: set<(UserId, UserId)>, newBlocks: set<(UserId, UserId)>,
                                   refuses: set<(UserId, UserId)>, notified: set<UserId>, now: Time) returns (r: Result<Reply>)
      modifies this`friends, this`blocks, this`refusesFiles, this`events, this`cursor
      ensures Agrees(r, Value(), ReplaceRelations(old(Value()), newFriends, newBlocks, refuses, notified, now))
    {
      friends, blocks, refusesFiles := newFriends, newBlocks, refuses;
      AppendEvent(notified, RelationsChanged, now);
      return Ok(Done);
    }

    method AcceptFriendInStore(sender: UserId, recipient: UserId, c: ConversationId, now: Time) returns (r: Result<Reply>)
      modifies this`friends, this`refusesFiles, this`settings, this`conversations, this`events, this`cursor
      ensures Agrees(r, Value(), BecomeFriends(old(Value()), sender, recipient, c, now))
    {
      friends := friends + {(sender, recipient)};
      refusesFiles := refusesFiles - {(sender, recipient), (recipient, sender)};
      var direct :- DirectOf(sender, recipient, now);
      InsertConversation(c, direct);
      AppendEvent({sender, recipient}, RelationsChanged, now);
      return Ok(Done);
    }

    method CreateDirectInStore(actor: UserId, peer: UserId, c: ConversationId, now: Time) returns (r: Result<Reply>)
      modifies this`settings, this`conversations, this`events, this`cursor
      ensures Agrees(r, Value(), OpenDirect(old(Value()), actor, peer, c, now))
    {
      var _ :- Need(AreFriends(Value(), actor, peer), Forbidden);
      if exists d :: d in conversations && IsDirectBetween(conversations[d], actor, peer) {
        return Ok(Done);
      }
      var direct :- DirectOf(actor, peer, now);
      InsertConversation(c, direct);
      AppendEvent({actor}, ConversationUpdated(c), now);
      AppendEvent({peer}, ConversationUpdated(c), now);
      return Ok(Done);
    }

    method CreateGroupInStore(actor: UserId, invited: seq<UserId>, c: ConversationId, now: Time) returns (r: Result<Reply>)
      modifies this`settings, this`conversations, this`events, this`cursor
      ensures Agrees(r, Value(), OpenGroup(old(Value()), actor, invited, c, now))
    {
      var _ :- Need(forall u :: u in invited ==> u == actor || AreFriends(Value(), actor, u), Forbidden);
      var room :- Room.Create(actor, invited, now);
      var conversation := room.Value();
      InsertConversation(c, conversation);
      AppendEvent(conversation.members.Keys, ConversationUpdated(c), now);
      return Ok(Done);
    }

    method UpdateGroupInStore(actor: UserId, c: ConversationId, described: bool, minted: Minted, now: Time) returns (r: Result<Reply>)
      modifies this`logs, this`conversations, this`events, this`cursor
      ensures Agrees(r, Value(), EditGroup(old(Value()), actor, c, described, minted, now))
    {
      var conversation :- FindGroup(Value(), c);
      var _ :- Need(conversation.HasRoleAtLeast(actor, Administrator), Forbidden);
      conversations := conversations[c := conversation.(updatedAt := now)];
      r := DescribeInStore(actor, c, described, minted, conversation.members.Keys, now);
    }

    method DescribeInStore(actor: UserId, c: ConversationId, described: bool, minted: Minted, recipients: set<UserId>, now: Time)
      returns (r: Result<Reply>)
      modifies this`logs, this`conversations, this`events, this`cursor
      ensures Agrees(r, Value(), Describe(old(Value()), actor, c, described, minted, recipients, now))
    {
      if described {
        var _ :- AppendSystemMessage(c, actor, GroupUpdated, minted, now);
      }
      AppendEvent(recipients, ConversationUpdated(c), now);
      return Ok(Done);
    }

    /** Adds the invited people who are not members yet, one by one. */
    method AdmitAll(conversation: Conversation, invited: seq<UserId>, now: Time) returns (admitted: Conversation, added: set<UserId>)
      ensures added == Newcomers(conversation, invited) && admitted == Admit(conversation, added, now)
    {
      var members := conversation.members;
      added := {};
      for i := 0 to |invited|
        invariant added == Newcomers(conversation, invited[..i])
        invariant members == conversation.members + (map u | u in added :: Participant(Member, None, now))
      {
        assert invited[..i + 1] == invited[..i] + [invited[i]];
        if invited[i] !in members {
          members := members[invited[i] := Participant(Member, None, now)];
          added := added + {invited[i]};
        }
      }
      assert invited[..|invited|] == invited;
      admitted := conversation.(members := members, updatedAt := now);
    }

    method AddMembersInStore(actor: UserId, c: ConversationId, invited: seq<UserId>, minted: Minted, now: Time) returns (r: Result<Reply>)
      modifies this`logs, this`conversations, this`settings, this`events, this`cursor
      ensures Agrees(r, Value(), InviteMembers(old(Value()), actor, c, invited, minted, now))
    {
      var _ :- Need(1 <= |invited| <= 100, Invalid);
      var conversation :- FindGroup(Value(), c);
      var _ :- Need(conversation.CanRead(actor), Forbidden);
      var _ :- CheckInvited(Value(), actor, invited);
      var admitted, added := AdmitAll(conversation, invited, now);
      var _ :- Need(|admitted.members| <= MAX_GROUP_MEMBERS, Invalid);
      r := WelcomeInStore(actor, c, admitted, added, minted, now);
    }

    method WelcomeInStore(actor: UserId, c: ConversationId, admitted: Conversation, added: set<UserId>, minted: Minted, now: Time)
      returns (r: Result<Reply>)
      modifies this`logs, this`conversations, this`settings, this`events, this`cursor
      ensures Agrees(r, Value(), Welcome(old(Value()), actor, c, admitted, added, minted, now))
    {
      conversations := conversations[c := admitted];
      settings := settings + Defaults(NewKeys(c, added));
      if added != {} {
        var _ :- AppendSystemMessage(c, actor, MembersInvited(|added|), minted, now);
      }
      AppendEvent(admitted.members.Keys, MembershipUpdated(c), now);
      return Ok(Done);
    }

    method LeaveInStore(actor: UserId, c: ConversationId, minted: Minted, now: Time) returns (r: Result<Reply>)
      modifies this`logs, this`conversations, this`settings, this`events, this`cursor
      ensures Agrees(r, Value(), Leave(old(Value()), actor, c, minted, now))
    {
      var conversation :- FindGroup(Value(), c);
      var _ :- Need(conversation.CanRead(actor), Forbidden);
      var _ :- Need(!conversation.HasRole(actor, Owner), Conflict);
      var members := conversation.members - {actor};
      conversations := conversations[c := conversation.(members := members, updatedAt := now)];
      settings := settings - {(actor, c)};
      r := AnnounceChange(c, actor, MemberLeft, minted, members.Keys, now);
    }

    method DisbandInStore(actor: UserId, c: ConversationId, now: Time) returns (r: Result<Reply>)
      modifies this`conversations, this`settings, this`muteAll, this`events, this`cursor
      ensures Agrees(r, Value(), Disband(old(Value()), actor, c, now))
    {
      var conversation :- FindGroup(Value(), c);
      var _ :- Need(conversation.HasRoleAtLeast(actor, Owner), Forbidden);
      conversations := conversations - {c};
      settings := SettingsElsewhere(settings, c);
      muteAll := muteAll - {c};
      AppendEvent(conversation.members.Keys, Disbanded(c), now);
      return Ok(Done);
    }

    method UpdateMemberInStore(actor: UserId, c: ConversationId, target: UserId, renamed: bool, role: Option<Role>,
                               mutedUntil: Option<Option<Time>>, minted: Minted, now: Time) returns (r: Result<Reply>)
      modifies this`logs, this`conversations, this`events, this`cursor
      ensures Agrees(r, Value(), EditMember(old(Value()), actor, c, target, renamed, role, mutedUntil, minted, now))
    {
      var conversation :- FindGroup(Value(), c);
      var _ :- CheckEdit(conversation.members, actor, target, renamed, role, mutedUntil);
      var edited := Edited(conversation.members[target], role, mutedUntil);
      r := ReplaceMemberInStore(actor, c, conversation, target, edited, minted, now);
    }

    method ReplaceMemberInStore(actor: UserId, c: ConversationId, conversation: Conversation, target: UserId, edited: Participant,
                                minted: Minted, now: Time) returns (r: Result<Reply>)
      modifies this`logs, this`conversations, this`events, this`cursor
      ensures Agrees(r, Value(), ReplaceMember(old(Value()), actor, c, conversation, target, edited, minted, now))
    {
      conversations := conversations[c := conversation.(members := conversation.members[target := edited], updatedAt := now)];
      r := AnnounceChange(c, actor, MemberSettingsUpdated, minted, conversation.members.Keys, now);
    }

    method RemoveMemberInStore(actor: UserId, c: ConversationId, target: UserId, minted: Minted, now: Time) returns (r: Result<Reply>)
      modifies this`logs, this`conversations, this`settings, this`events, this`cursor
      ensures Agrees(r, Value(), Remove(old(Value()), actor, c, target, minted, now))
    {
      var conversation :- FindGroup(Value(), c);
      var room := new Room.Of(conversation);
      var _ :- room.RemoveMember(actor, target, now);
      conversations := conversations[c := room.Value()];
      settings := settings - {(target, c)};
      r := AnnounceChange(c, actor, MemberRemoved, minted, room.members.Keys, now);
    }

    method TransferInStore(actor: UserId, c: ConversationId, target: UserId, minted: Minted, now: Time) returns (r: Result<Reply>)
      modifies this`logs, this`conversations, this`events, this`cursor
      ensures Agrees(r, Value(), Transfer(old(Value()), actor, c, target, minted, now))
    {
      var conversation :- FindGroup(Value(), c);
      var room := new Room.Of(conversation);
      var _ :- room.TransferOwnership(actor, target, now);
      conversations := conversations[c := room.Value()];
      r := AnnounceChange(c, actor, OwnershipTransferred, minted, room.members.Keys, now);
    }

    method SetMuteAllInStore(actor: UserId, c: ConversationId, muted: bool, minted: Minted, now: Time) returns (r: Result<Reply>)
      modifies this`logs, this`conversations, this`muteAll, this`events, this`cursor
      ensures Agrees(r, Value(), MuteGroup(old(Value()), actor, c, muted, minted, now))
    {
      var conversation :- FindGroup(Value(), c);
      var _ :- Need(conversation.HasRoleAtLeast(actor, Administrator), Forbidden);
      muteAll := Muting(muteAll, c, muted);
      r := AnnounceChange(c, actor, MuteAllChanged(muted), minted, conversation.members.Keys, now);
    }

    method RequestJoinInStore(actor: UserId, c: ConversationId, request: RequestId, now: Time) returns (r: Result<Reply>)
      modifies this`joinRequests, this`events, this`cursor
      ensures Agrees(r, Value(), AskToJoin(old(Value()), actor, c, request, now))
    {
      var conversation :- FindGroup(Value(), c);
      var _ :- Need(!conversation.CanRead(actor), Conflict);
      var _ :- Need(MayAsk(Value(), actor, c), Conflict);
      joinRequests := joinRequests[request := JoinRequest(c, actor, Waiting)];
      AppendEvent(Reviewers(conversation), JoinRequestUpdated(request), now);
      return Ok(Done);
    }

    method DecideJoinInStore(actor: UserId, request: RequestId, accept: bool, minted: Minted, now: Time) returns (r: Result<Reply>)
      modifies this`logs, this`conversations, this`settings, this`joinRequests, this`events, this`cursor
      ensures Agrees(r, Value(), ReviewJoin(old(Value()), actor, request, accept, minted, now))
    {
      if request !in joinRequests {
        return Err(NotFound);
      }
      var JoinRequest(c, applicant, status) := joinRequests[request];
      var _ :- Need(status == Waiting, Conflict);
      var conversation :- Find(Value(), c);
      var _ :- Need(conversation.HasRoleAtLeast(actor, Administrator), Forbidden);
      joinRequests := joinRequests[request := JoinRequest(c, applicant, if accept then Accepted else Rejected)];
      if accept {
        r := EnterInStore(actor, request, c, conversation, applicant, minted, now);
        return;
      }
      AppendEvent(conversation.members.Keys + {applicant}, JoinRequestUpdated(request), now);
      return Ok(Done);
    }

    method EnterInStore(actor: UserId, request: RequestId, c: ConversationId, conversation: Conversation, applicant: UserId,
                        minted: Minted, now: Time) returns (r: Result<Reply>)
      modifies this`logs, this`conversations, this`settings, this`events, this`cursor
      ensures Agrees(r, Value(), Enter(old(Value()), actor, request, c, conversation, applicant, minted, now))
    {
      conversations := conversations[c := conversation.(members := conversation.members[applicant := Participant(Member, None, now)],
                                                        updatedAt := now)];
      settings := settings[(applicant, c) := DEFAULT_SETTINGS];
      var _ :- AppendSystemMessage(c, actor, MemberJoined, minted, now);
      AppendEvent(conversation.members.Keys + {applicant}, JoinRequestUpdated(request), now);
      return Ok(Done);
    }

    // ----- messages already in a log -----

    method RecallInStore(actor: UserId, id: MessageId, now: Time) returns (r: Result<Reply>)
      requires WellPlaced(logs) && UniqueIds(logs)
      modifies this`logs, this`expirations, this`events, this`cursor
      ensures Agrees(r, Value(), RecallMessage(old(Value()), actor, id, now))
    {
      var original :- Lookup(id);
      var c := original.conversation;
      var conversation :- Find(Value(), c);
      var _ :- Need(conversation.kind.Group? ==> conversation.CanRead(actor), Forbidden);
      var _ :- Need(original.sender == actor || (conversation.kind.Group? && conversation.HasRoleAtLeast(actor, Administrator)), Forbidden);
      var _ :- Need(original.status != Recalled && !(original.sender == actor && now - original.createdAt > RECALL_SECONDS), Conflict);
      assert c in logs by {
        var d, i: nat :| HoldsAt(logs, d, i, id) && original == logs[d][i];
        assert Placed(logs[d][i], d, i);
      }
      var log := logs[c];
      var updated := log;
      for i := 0 to |log|
        invariant |updated| == |log|
        invariant forall j :: 0 <= j < |log| ==> updated[j] == if j < i then RecallIn(log, id)[j] else log[j]
      {
        if log[i].id == id {
          updated := updated[i := log[i].(status := Recalled, content := System(MessageRecalled))];
        }
      }
      assert updated == RecallIn(log, id);
      logs := logs[c := updated];
      expirations := expirations - {id};
      var recalled := original.(status := Recalled, content := System(MessageRecalled));
      AppendEvent(conversation.members.Keys, MessageRecalledEvent(recalled), now);
      return Ok(Messages([recalled]));
    }

    method AcknowledgeInStore(actor: UserId, id: MessageId, now: Time) returns (r: Result<Reply>)
      requires UniqueIds(logs)
      modifies this`receipts, this`events, this`cursor
      ensures Agrees(r, Value(), Deliver(old(Value()), actor, id, now))
    {
      var message :- Lookup(id);
      var conversation :- Find(Value(), message.conversation);
      var _ :- Need(conversation.CanRead(actor) && message.sender != actor, Forbidden);
      var receipt := ReceiptOf(receipts, id);
      receipts := receipts[id := receipt.(deliveredTo := receipt.deliveredTo + {actor})];
      AppendEvent({message.sender}, MessageDelivered(id, actor), now);
      return Ok(Done);
    }

    // ----- read state -----

    method GiveReceipts(log: seq<Message>, actor: UserId, through: nat)
      modifies this`receipts
      ensures receipts == Receive(old(receipts), ReadIds(log, actor, through), actor)
    {
      var ids := ReadIds(log, actor, through);
      var rest := ids;
      while rest != {}
        invariant rest <= ids
        invariant receipts.Keys == old(receipts).Keys + (ids - rest)
        invariant forall id :: id in old(receipts) && id !in ids - rest ==> receipts[id] == old(receipts)[id]
        invariant forall id :: id in ids - rest ==>
                    receipts[id] == Receipt(ReceiptOf(old(receipts), id).deliveredTo + {actor}, ReceiptOf(old(receipts), id).readBy + {actor})
      {
        var id :| id in rest;
        var receipt := ReceiptOf(receipts, id);
        receipts := receipts[id := Receipt(receipt.deliveredTo + {actor}, receipt.readBy + {actor})];
        rest := rest - {id};
      }
      assert ids - rest == ids;
    }

    method AdvanceReader(actor: UserId, c: ConversationId, next: nat)
      modifies this`receipts, this`readPositions, this`settings
      ensures Value() == Advance(old(Value()), actor, c, next)
    {
      GiveReceipts(LogOf(logs, c), actor, next);
      var position := if (actor, c) in readPositions then readPositions[(actor, c)] else 0;
      readPositions := readPositions[(actor, c) := Max(position, next)];
      var current := if (actor, c) in settings then settings[(actor, c)] else DEFAULT_SETTINGS;
      settings := settings[(actor, c) := Settings(Max(current.lastRead, next), false)];
    }

    method MarkReadInStore(actor: UserId, c: ConversationId, through: nat, now: Time) returns (r: Result<Reply>)
      modifies this`receipts, this`readPositions, this`settings, this`events, this`cursor
      ensures Agrees(r, Value(), ReadUpTo(old(Value()), actor, c, through, now))
      ensures Inv(old(Value())) ==>
                && (r.Ok? <==> c in conversations && actor in conversations[c].members)
                && (r.Ok? && through >= |LogOf(logs, c)| ==>
                      Unread(LogOf(logs, c), actor, SettingsOf(Value(), actor, c).lastRead) == 0)
    {
      if Inv(Value()) {
        ReadingIsExact(Value(), actor, c, through, now, (actor, c));
      }
      var conversation :- Find(Value(), c);
      var _ :- Need(conversation.CanRead(actor), Forbidden);
      var latest := LastSequence(LogOf(logs, c));
      var next := if through < latest then through else latest;
      AdvanceReader(actor, c, next);
      AppendEvent(conversation.members.Keys, ReadThrough(actor, c, next), now);
      return Ok(Done);
    }

    method AdvanceToLatest(keys: set<(UserId, ConversationId)>)
      modifies this`readPositions, this`settings
      ensures readPositions == old(readPositions) + Latest(keys, logs)
      ensures settings == old(settings) + LatestSettings(keys, logs)
    {
      var rest := keys;
      while rest != {}
        invariant rest <= keys
        invariant readPositions.Keys == old(readPositions).Keys + (keys - rest)
        invariant settings.Keys == old(settings).Keys + (keys - rest)
        invariant forall k :: k in keys - rest ==> readPositions[k] == LastSequence(LogOf(logs, k.1))
        invariant forall k :: k in keys - rest ==> settings[k] == Settings(LastSequence(LogOf(logs, k.1)), false)
        invariant forall k :: k in old(readPositions) && k !in keys - rest ==> readPositions[k] == old(readPositions)[k]
        invariant forall k :: k in old(settings) && k !in keys - rest ==> settings[k] == old(settings)[k]
      {
        var k :| k in rest;
        var latest := LastSequence(LogOf(logs, k.1));
        readPositions := readPositions[k := latest];
        settings := settings[k := Settings(latest, false)];
        rest := rest - {k};
      }
      assert keys - rest == keys;
    }

    method MarkAllReadInStore(actor: UserId, now: Time) returns (r: Result<Reply>)
      modifies this`readPositions, this`settings, this`events, this`cursor
      ensures Agrees(r, Value(), ReadEverything(old(Value()), actor, now))
    {
      AdvanceToLatest(ReadableKeys(Value(), actor));
      AppendEvent({actor}, AllRead, now);
      return Ok(Done);
    }

    method UpdateSettingsInStore(actor: UserId, c: ConversationId, manuallyUnread: Option<bool>, now: Time) returns (r: Result<Reply>)
      modifies this`settings, this`events, this`cursor
      ensures Agrees(r, Value(), ChangeSettings(old(Value()), actor, c, manuallyUnread, now))
    {
      var conversation :- Find(Value(), c);
      var _ :- Need(conversation.CanRead(actor), Forbidden);
      var current := if (actor, c) in settings then settings[(actor, c)] else DEFAULT_SETTINGS;
      if manuallyUnread.Some? {
        current := current.(manuallyUnread := manuallyUnread.value);
      }
      assert ChangeSettings(Value(), actor, c, manuallyUnread, now)
             == Ok((Publish(Value().(settings := settings[(actor, c) := current]), {actor}, SettingsChanged(c), now), Done));
      settings := settings[(actor, c) := current];
      AppendEvent({actor}, SettingsChanged(c), now);
      return Ok(Done);
    }

    // ----- scheduled messages -----

    method RetainScheduled(keep: Scheduled -> bool)
      modifies this`scheduled
      ensures scheduled == Retain(old(scheduled), keep)
    {
      var all := scheduled;
      scheduled := [];
      for i := 0 to |all|
        invariant scheduled == Retain(all[..i], keep)
      {
        assert all[..i + 1][..i] == all[..i];
        if keep(all[i]) {
          scheduled := scheduled + [all[i]];
        }
      }
      assert all[..|all|] == all;
    }

    method ScheduleInStore(item: Scheduled, now: Time) returns (r: Result<Reply>)
      modifies this`scheduled
      ensures Agrees(r, Value(), ScheduleMessage(old(Value()), item, now))
    {
      var _ :- Need(ContentIsValid(item.request.content), Invalid);
      var _ :- Need(now + 10 <= item.dueAt <= now + 30 * DAY && ExpiryInRange(item.request.expiresIn), Invalid);
      var _ :- CheckMentions(Value(), item.actor, item.conversation, item.request);
      var conversation :- Find(Value(), item.conversation);
      var _ :- Need(conversation.CanSend(item.actor, now), Forbidden);
      var _ :- Need((forall e :: e in scheduled ==> !SameKey(e, item.actor, item.request.clientId))
                    && (item.actor, item.request.clientId) !in dedup, Conflict);
      scheduled := scheduled + [item];
      return Ok(Done);
    }

    method CancelInStore(actor: UserId, request: RequestId) returns (r: Result<Reply>)
      modifies this`scheduled
      ensures Agrees(r, Value(), CancelSchedule(old(Value()), actor, request))
    {
      var before := |scheduled|;
      RetainScheduled((e: Scheduled) => !(e.id == request && e.actor == actor));
      if |scheduled| == before {
        return Err(NotFound);
      }
      return Ok(Done);
    }

    method DropInStore(request: RequestId) returns (r: Result<Reply>)
      modifies this`scheduled
      ensures Agrees(r, Value(), DropSchedule(old(Value()), request))
    {
      RetainScheduled((e: Scheduled) => e.id != request);
      return Ok(Done);
    }

    // ----- attachments -----

    method AuthorizeInStore(actor: UserId, id: AttachmentId, byteSize: nat, metadata: string, now: Time) returns (r: Result<Reply>)
      modifies this`attachments
      ensures Agrees(r, Value(), Authorize(old(Value()), actor, id, byteSize, metadata, now))
    {
      var attachment := Attachment(id, byteSize, Upload(actor, id), metadata);
      attachments := attachments[id := StoredAttachment(attachment, actor, now + 600, false, false)];
      return Ok(Done);
    }

    method CompleteInStore(actor: UserId, id: AttachmentId, now: Time) returns (r: Result<Reply>)
      modifies this`attachments
      ensures Agrees(r, Value(), Complete(old(Value()), actor, id, now))
    {
      var stored :- OwnedAttachment(Value(), actor, id);
      var _ :- Need(stored.expiresAt > now, Conflict);
      var _ :- Need(!stored.quarantined, Forbidden);
      attachments := attachments[id := stored.(available := true)];
      return Ok(Done);
    }

    method QuarantineInStore(actor: UserId, id: AttachmentId, now: Time) returns (r: Result<Reply>)
      modifies this`attachments
      ensures Agrees(r, Value(), Quarantine(old(Value()), actor, id, now))
    {
      var stored :- OwnedAttachment(Value(), actor, id);
      var _ :- Need(!stored.available, NotFound);
      attachments := attachments[id := stored.(quarantined := true, expiresAt := now + 7 * DAY)];
      return Ok(Done);
    }

    method CleanupInStore(now: Time) returns (r: Result<Reply>)
      modifies this`attachments
      ensures Agrees(r, Value(), Cleanup(old(Value()), now))
    {
      var keys: map<AttachmentId, StorageKey> := map[];
      var rest := attachments.Keys;
      while rest != {}
        invariant rest <= old(attachments).Keys
        invariant attachments == old(attachments) - keys.Keys
        invariant forall id :: id in keys ==> id in old(attachments) && id !in rest
                                              && keys[id] == old(attachments)[id].attachment.storageKey
        invariant forall id :: id in old(attachments) && id !in rest ==>
                    (id in keys <==> !old(attachments)[id].available && old(attachments)[id].expiresAt <= now)
      {
        var id :| id in rest;
        var stored := attachments[id];
        if !stored.available && stored.expiresAt <= now {
          keys := keys[id := stored.attachment.storageKey];
          attachments := attachments - {id};
        }
        rest := rest - {id};
      }
      ghost var expired := Expired(old(attachments), now);
      assert keys.Keys == expired;
      assert keys == StorageKeys(old(attachments), expired);
      return Ok(Purged(keys));
    }

    // ----- account deletion -----

    method DetachFromConversations(actor: UserId, now: Time)
      modifies this`conversations
      ensures conversations == DetachFromAll(old(conversations), actor, now)
    {
      var rest := conversations.Keys;
      while rest != {}
        invariant rest <= conversations.Keys && conversations.Keys == old(conversations).Keys
        invariant forall c :: c in conversations ==>
                    conversations[c] == if c in rest then old(conversations)[c] else Detached(old(conversations)[c], actor, now)
      {
        var c :| c in rest;
        if conversations[c].CanRead(actor) {
          var room := new Room.Of(conversations[c]);
          room.Detach(actor, now);
          conversations := conversations[c := room.Value()];
        }
        rest := rest - {c};
      }
    }

    method DeleteInStore(actor: UserId, passwordMatches: bool, now: Time) returns (r: Result<Reply>)
      modifies this
      ensures Agrees(r, Value(), Delete(old(Value()), actor, passwordMatches, now))
    {
      var _ :- Need(actor in accounts && !accounts[actor].deleted, NotFound);
      var _ :- Need(passwordMatches, InvalidCredentials);
      var recipients := Contacts(Value(), actor);
      DetachFromConversations(actor, now);
      accounts := accounts[actor := Account(DELETED_NICKNAME, true)];
      PurgeRelationships(actor);
      AppendEvent(recipients, AccountDeleted(actor), now);
      return Ok(Done);
    }

    method PurgeRelationships(actor: UserId)
      modifies this`friends, this`refusesFiles, this`settings, this`readPositions, this`blocks, this`scheduled
      ensures Value() == Purge(old(Value()), actor)
    {
      PurgePairs(actor);
      settings := OthersEntries(settings, actor);
      readPositions := OthersEntries(readPositions, actor);
      RetainScheduled((e: Scheduled) => e.actor != actor);
    }

    method PurgePairs(actor: UserId)
      modifies this`friends, this`refusesFiles, this`blocks
      ensures friends == Unrelated(old(friends), actor) && refusesFiles == Unrelated(old(refusesFiles), actor)
      ensures blocks == Unrelated(old(blocks), actor)
    {
      friends := Unrelated(friends, actor);
      refusesFiles := Unrelated(refusesFiles, actor);
      blocks := Unrelated(blocks, actor);
    }

    // ----- dispatch and commit -----

    method ExecuteGroup(op: Op, now: Time) returns (r: Result<Reply>)
      requires EditsGroups(op)
      modifies this
      ensures Agrees(r, Value(), ApplyToGroup(old(Value()), op, now))
    {
      match op {
        case UpdateGroup(actor, c, described, minted) => r := UpdateGroupInStore(actor, c, described, minted, now);
        case AddMembers(actor, c, invited, minted) => r := AddMembersInStore(actor, c, invited, minted, now);
        case LeaveGroup(actor, c, minted) => r := LeaveInStore(actor, c, minted, now);
        case DisbandGroup(actor, c) => r := DisbandInStore(actor, c, now);
        case UpdateMember(actor, c, target, renamed, role, mutedUntil, minted) =>
          r := UpdateMemberInStore(actor, c, target, renamed, role, mutedUntil, minted, now);
        case RemoveMember(actor, c, target, minted) => r := RemoveMemberInStore(actor, c, target, minted, now);
        case TransferOwnership(actor, c, target, minted) => r := TransferInStore(actor, c, target, minted, now);
        case SetMuteAll(actor, c, muted, minted) => r := SetMuteAllInStore(actor, c, muted, minted, now);
        case RequestJoin(actor, c, request) => r := RequestJoinInStore(actor, c, request, now);
        case DecideJoin(actor, request, accept, minted) => r := DecideJoinInStore(actor, request, accept, minted, now);
      }
    }

    method ExecuteMessage(op: Op, now: Time) returns (r: Result<Reply>)
      requires HandlesMessages(op) && MintsEnough(op) && WellPlaced(logs) && UniqueIds(logs)
      modifies this
      ensures Agrees(r, Value(), ApplyToMessages(old(Value()), op, now))
    {
      match op {
        case Send(actor, c, sent, id) => r := SendInStore(actor, c, sent, id, now);
        case Forward(actor, sources, c, merged, minteds) => r := ForwardInStore(actor, sources, c, merged, minteds, now);
        case Recall(actor, id) => r := RecallInStore(actor, id, now);
        case AcknowledgeDelivery(actor, id) => r := AcknowledgeInStore(actor, id, now);
        case MarkRead(actor, c, through) => r := MarkReadInStore(actor, c, through, now);
        case MarkAllRead(actor) => r := MarkAllReadInStore(actor, now);
        case UpdateSettings(actor, c, manuallyUnread) => r := UpdateSettingsInStore(actor, c, manuallyUnread, now);
        case Schedule(item) => r := ScheduleInStore(item, now);
        case CancelScheduled(actor, request) => r := CancelInStore(actor, request);
        case DropScheduled(request) => r := DropInStore(request);
      }
    }

    method ExecuteOther(op: Op, now: Time) returns (r: Result<Reply>)
      requires !EditsGroups(op) && !HandlesMessages(op)
      modifies this
      ensures Agrees(r, Value(), ApplyToAccounts(old(Value()), op, now))
    {
      match op {
        case Register(user, nickname) => r := RegisterInStore(user, nickname);
        case ChangeRelations(newFriends, newBlocks, refuses, notified) =>
          r := ReplaceRelationsInStore(newFriends, newBlocks, refuses, notified, now);
        case AcceptFriend(sender, recipient, c) => r := AcceptFriendInStore(sender, recipient, c, now);
        case CreateDirect(actor, peer, c) => r := CreateDirectInStore(actor, peer, c, now);
        case CreateGroup(actor, invited, c) => r := CreateGroupInStore(actor, invited, c, now);
        case AuthorizeAttachment(actor, id, byteSize, metadata) => r := AuthorizeInStore(actor, id, byteSize, metadata, now);
        case CompleteAttachment(actor, id) => r := CompleteInStore(actor, id, now);
        case QuarantineAttachment(actor, id) => r := QuarantineInStore(actor, id, now);
        case CleanupAttachments => r := CleanupInStore(now);
        case DeleteAccount(actor, passwordMatches) => r := DeleteInStore(actor, passwordMatches, now);
      }
    }

    /** The transaction around every operation. `persisted` is whether the database takes the snapshot.
        Either everything the operation did is kept and its new events are returned for publication,
        or the store is exactly as before and nothing is published. */
    method Mutate(op: Op, now: Time, persisted: bool) returns (r: Result<Reply>, published: seq<UserEvent>)
      requires Inv(Value()) && MintsEnough(op) && FreshIds(Value(), op)
      modifies this
      ensures Inv(Value())
      ensures Transacts(old(Value()), Value(), Apply(old(Value()), op, now), persisted, r, published)
    {
      ghost var start := Value();
      var previous := Value();
      var firstNew := |events|;
      var attempted := Execute(op, now);
      ghost var executed := Value();
      if attempted.Ok? {
        CommitKeeps(start, executed, op, now, attempted);
      }
      r, published := Conclude(previous, firstNew, attempted, persisted);
      MutateTransacts(start, executed, Value(), Apply(start, op, now), attempted, persisted, r, published);
    }

    /** Keeps what an operation did, or puts the previous fields back if it failed or cannot be persisted. */
    method Conclude(previous: State, firstNew: nat, attempted: Result<Reply>, persisted: bool)
      returns (r: Result<Reply>, published: seq<UserEvent>)
      requires attempted.Ok? ==> firstNew <= |events|
      modifies this
      ensures if attempted.Ok? && persisted
              then r == attempted && Value() == old(Value()) && published == events[firstNew..]
              else Value() == previous && published == []
                   && r == Err(if attempted.Err? then attempted.error else Error.Storage)
    {
      if attempted.Err? {
        Restore(previous);
        return attempted, [];
      }
      if !persisted {
        Restore(previous);
        return Err(Error.Storage), [];
      }
      return attempted, events[firstNew..];
    }

    method Execute(op: Op, now: Time) returns (r: Result<Reply>)
      requires MintsEnough(op) && WellPlaced(logs) && UniqueIds(logs)
      modifies this
      ensures Agrees(r, Value(), Apply(old(Value()), op, now))
    {
      if EditsGroups(op) {
        r := ExecuteGroup(op, now);
      } else if HandlesMessages(op) {
        r := ExecuteMessage(op, now);
      } else {
        r := ExecuteOther(op, now);
      }
    }
  }

  lemma CommitKeeps(before: State, after: State, op: Op, now: Time, r: Result<Reply>)
    requires Inv(before) && MintsEnough(op) && FreshIds(before, op)
    requires Agrees(r, after, Apply(before, op, now)) && r.Ok?
    ensures Inv(after) && before.events <= after.events
  {
    ApplyKeeps(before, op, now);
  }

  /** A partial result followed by what the rest of a loop makes of it. */
  ghost function Prepend(done: seq<Message>, rest: Result<(State, seq<Message>)>): Result<(State, seq<Message>)> {
    if rest.Ok? then Ok((rest.value.0, done + rest.value.1)) else rest
  }

  ghost predicate Continues(spec: Result<(State, seq<Message>)>, done: seq<Message>, s: State, actor: UserId, c: ConversationId,
                            contents: seq<Content>, minteds: seq<Minted>, last: nat, recipients: set<UserId>, now: Time)
    requires |minteds| >= |contents|
  {
    spec == Prepend(done, AppendAll(s, actor, c, contents, minteds, last, recipients, now))
  }

  lemma AppendAllStarts(s: State, actor: UserId, c: ConversationId, contents: seq<Content>, minteds: seq<Minted>, last: nat,
                        recipients: set<UserId>, now: Time)
    requires |minteds| >= |contents|
    ensures Continues(AppendAll(s, actor, c, contents, minteds, last, recipients, now), [], s, actor, c, contents, minteds, last,
                      recipients, now)
  {
    var spec := AppendAll(s, actor, c, contents, minteds, last, recipients, now);
    assert spec.Ok? ==> [] + spec.value.1 == spec.value.1;
  }

  lemma AppendAllEnds(spec: Result<(State, seq<Message>)>, done: seq<Message>, s: State, actor: UserId, c: ConversationId,
                      minteds: seq<Minted>, last: nat, recipients: set<UserId>, now: Time)
    requires Continues(spec, done, s, actor, c, [], minteds, last, recipients, now)
    ensures spec == Ok((s, done))
  {
    assert done + [] == done;
  }

  lemma AppendAllUnfolds(spec: Result<(State, seq<Message>)>, done: seq<Message>, s: State, actor: UserId, c: ConversationId,
                         contents: seq<Content>, minteds: seq<Minted>, last: nat, recipients: set<UserId>, now: Time)
    requires |minteds| >= |contents| > 0 && Continues(spec, done, s, actor, c, contents, minteds, last, recipients, now)
    ensures var first := AppendForwarded(s, actor, c, contents[0], minteds[0], last + 1, recipients, now);
            if first.Err? then spec == Err(first.error)
            else Continues(spec, done + [first.value.1], first.value.0, actor, c, contents[1..], minteds[1..], last + 1,
                           recipients, now)
  {
    var first := AppendForwarded(s, actor, c, contents[0], minteds[0], last + 1, recipients, now);
    if first.Ok? {
      var rest := AppendAll(first.value.0, actor, c, contents[1..], minteds[1..], last + 1, recipients, now);
      if rest.Ok? {
        assert done + ([first.value.1] + rest.value.1) == done + [first.value.1] + rest.value.1;
      }
    }
  }
}
