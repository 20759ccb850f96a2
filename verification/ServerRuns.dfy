/** The invariant of the server store holds after every run of operations, and logs only grow along it. */
module ServerRuns {
  import opened Domain
  import opened Membership
  import opened ServerState
  import opened ServerInvariants

  ghost predicate Keeps(s: State, outcome: Outcome, deleted: set<UserId>) {
    outcome.Ok? ==> Inv(outcome.value.0) && Evolves(s, outcome.value.0, deleted)
  }

  // ----- groups -----

  lemma AnnounceKeeps(s: State, e: State, c: ConversationId, actor: UserId, notice: Notice, minted: Minted,
                      recipients: set<UserId>, now: Time)
    requires Inv(e) && Evolves(s, e, {}) && c in e.conversations && IsFresh(e, minted.id)
    ensures var r := Announce(e, c, actor, notice, minted, recipients, now);
            r.Ok? && Keeps(s, r, {})
            && r.value.0.conversations == e.conversations[c := e.conversations[c].(updatedAt := now)]
  {
    NoticeKeeps(e, c, actor, notice, minted, now);
    var posted := PostNotice(e, c, actor, notice, minted, now).value;
    EvolvesIsTransitive(s, e, posted, {}, {});
    PublishKeeps(s, posted, recipients, MembershipUpdated(c), now, {});
  }

  /** Replacing one conversation, and settings by ones no further read, keeps everything but group ownership. */
  lemma ReplaceKeeps(s: State, e: State)
    requires Inv(s) && OwnerInv(e.conversations)
    requires e == s.(conversations := e.conversations, settings := e.settings, muteAll := e.muteAll,
                     joinRequests := e.joinRequests, accounts := e.accounts, friends := e.friends, blocks := e.blocks,
                     refusesFiles := e.refusesFiles)
    requires forall k :: k in e.settings ==>
               e.settings[k].lastRead == 0 || (k in s.settings && e.settings[k].lastRead == s.settings[k].lastRead)
    ensures Inv(e) && Evolves(s, e, {})
  {
  }

  lemma PublishKeeps(s: State, e: State, recipients: set<UserId>, body: EventBody, now: Time, deleted: set<UserId>)
    requires Inv(e) && Evolves(s, e, deleted)
    ensures Inv(Publish(e, recipients, body, now)) && Evolves(s, Publish(e, recipients, body, now), deleted)
  {
    assert Evolves(e, Publish(e, recipients, body, now), {});
    EvolvesIsTransitive(s, e, Publish(e, recipients, body, now), deleted, {});
    assert deleted + {} == deleted;
  }

  lemma ConversationsOpenedKeep(s: State, c: ConversationId, conversation: Conversation, e: State)
    requires Inv(s) && HasAtMostOneOwner(conversation.members)
    requires e == StoreConversation(s, c, conversation)
    ensures Inv(e) && Evolves(s, e, {})
  {
    ReplaceKeeps(s, e);
  }

  lemma RegisterKeeps(s: State, user: UserId, nickname: string)
    requires Inv(s)
    ensures Keeps(s, RegisterAccount(s, user, nickname), {})
  {
    if user !in s.accounts {
      ReplaceKeeps(s, RegisterAccount(s, user, nickname).value.0);
    }
  }

  lemma RelationsKeep(s: State, friends: set<(UserId, UserId)>, blocks: set<(UserId, UserId)>, refuses: set<(UserId, UserId)>,
                      notified: set<UserId>, now: Time)
    requires Inv(s)
    ensures Keeps(s, ReplaceRelations(s, friends, blocks, refuses, notified, now), {})
  {
    var e := s.(friends := friends, blocks := blocks, refusesFiles := refuses);
    ReplaceKeeps(s, e);
    PublishKeeps(s, e, notified, RelationsChanged, now, {});
  }

  lemma BecomeFriendsKeeps(s: State, sender: UserId, recipient: UserId, c: ConversationId, now: Time)
    requires Inv(s)
    ensures Keeps(s, BecomeFriends(s, sender, recipient, c, now), {})
  {
    if sender != recipient {
      var befriended := s.(friends := s.friends + {(sender, recipient)},
                           refusesFiles := s.refusesFiles - {(sender, recipient), (recipient, sender)});
      var e := StoreConversation(befriended, c, DirectOf(sender, recipient, now).value);
      ReplaceKeeps(s, e);
      PublishKeeps(s, e, {sender, recipient}, RelationsChanged, now, {});
    }
  }

  lemma OpenNewDirectKeeps(s: State, actor: UserId, peer: UserId, c: ConversationId, direct: Conversation, now: Time)
    requires Inv(s) && DirectOf(actor, peer, now) == Ok(direct)
    ensures var e := StoreConversation(s, c, direct);
            var t := Publish(Publish(e, {actor}, ConversationUpdated(c), now), {peer}, ConversationUpdated(c), now);
            Inv(t) && Evolves(s, t, {})
  {
    var e := StoreConversation(s, c, direct);
    ConversationsOpenedKeep(s, c, direct, e);
    PublishKeeps(s, e, {actor}, ConversationUpdated(c), now, {});
    PublishKeeps(s, Publish(e, {actor}, ConversationUpdated(c), now), {peer}, ConversationUpdated(c), now, {});
  }

  lemma OpenDirectKeeps(s: State, actor: UserId, peer: UserId, c: ConversationId, now: Time)
    requires Inv(s)
    ensures Keeps(s, OpenDirect(s, actor, peer, c, now), {})
  {
    EvolvesIsReflexive(s, {});
    if DirectOf(actor, peer, now).Ok? {
      OpenNewDirectKeeps(s, actor, peer, c, DirectOf(actor, peer, now).value, now);
    }
  }

  lemma OpenGroupKeeps(s: State, actor: UserId, invited: seq<UserId>, c: ConversationId, now: Time)
    requires Inv(s)
    ensures Keeps(s, OpenGroup(s, actor, invited, c, now), {})
  {
    var r := OpenGroup(s, actor, invited, c, now);
    if r.Ok? {
      var conversation := GroupOf(actor, invited, now).value;
      var e := StoreConversation(s, c, conversation);
      ConversationsOpenedKeep(s, c, conversation, e);
      PublishKeeps(s, e, conversation.members.Keys, ConversationUpdated(c), now, {});
    }
  }

  /** An edited group, an optional notice, and an event for the members. */
  lemma EditThenPublishKeeps(s: State, e: State, c: ConversationId, actor: UserId, posts: bool, notice: Notice, minted: Minted,
                             recipients: set<UserId>, body: EventBody, now: Time)
    requires Inv(e) && Evolves(s, e, {}) && c in e.conversations && IsFresh(e, minted.id)
    ensures var posted := if posts then PostNotice(e, c, actor, notice, minted, now) else Ok(e);
            posted.Ok? && Inv(Publish(posted.value, recipients, body, now))
            && Evolves(s, Publish(posted.value, recipients, body, now), {})
  {
    NoticeKeeps(e, c, actor, notice, minted, now);
    if posts {
      var posted := PostNotice(e, c, actor, notice, minted, now).value;
      EvolvesIsTransitive(s, e, posted, {}, {});
      PublishKeeps(s, posted, recipients, body, now, {});
    } else {
      PublishKeeps(s, e, recipients, body, now, {});
    }
  }

  lemma EditGroupKeeps(s: State, actor: UserId, c: ConversationId, described: bool, minted: Minted, now: Time)
    requires Inv(s) && IsFresh(s, minted.id)
    ensures Keeps(s, EditGroup(s, actor, c, described, minted, now), {})
  {
    if EditGroup(s, actor, c, described, minted, now).Ok? {
      var conversation := s.conversations[c];
      var e := Replace(s, c, conversation.(updatedAt := now));
      ReplaceKeeps(s, e);
      EditThenPublishKeeps(s, e, c, actor, described, GroupUpdated, minted, conversation.members.Keys, ConversationUpdated(c), now);
    }
  }

  lemma AdmitKeepsOwners(conversation: Conversation, invited: seq<UserId>, now: Time)
    requires HasAtMostOneOwner(conversation.members)
    ensures HasAtMostOneOwner(Admit(conversation, Newcomers(conversation, invited), now).members)
  {
  }

  lemma WelcomeKeeps(s: State, actor: UserId, c: ConversationId, admitted: Conversation, newcomers: set<UserId>, minted: Minted,
                     now: Time)
    requires Inv(s) && IsFresh(s, minted.id) && HasAtMostOneOwner(admitted.members)
    ensures Keeps(s, Welcome(s, actor, c, admitted, newcomers, minted, now), {})
  {
    var e := Replace(s, c, admitted).(settings := s.settings + Defaults(NewKeys(c, newcomers)));
    ReplaceKeeps(s, e);
    EditThenPublishKeeps(s, e, c, actor, newcomers != {}, MembersInvited(|newcomers|), minted, admitted.members.Keys,
                         MembershipUpdated(c), now);
  }

  lemma InviteMembersKeeps(s: State, actor: UserId, c: ConversationId, invited: seq<UserId>, minted: Minted, now: Time)
    requires Inv(s) && IsFresh(s, minted.id)
    ensures Keeps(s, InviteMembers(s, actor, c, invited, minted, now), {})
  {
    if FindGroup(s, c).Ok? {
      var newcomers := Newcomers(s.conversations[c], invited);
      AdmitKeepsOwners(s.conversations[c], invited, now);
      WelcomeKeeps(s, actor, c, Admit(s.conversations[c], newcomers, now), newcomers, minted, now);
    }
  }

  lemma LeaveKeeps(s: State, actor: UserId, c: ConversationId, minted: Minted, now: Time)
    requires Inv(s) && IsFresh(s, minted.id)
    ensures Keeps(s, Leave(s, actor, c, minted, now), {})
  {
    var r := Leave(s, actor, c, minted, now);
    if r.Ok? {
      var conversation := s.conversations[c];
      var left := conversation.(members := conversation.members - {actor}, updatedAt := now);
      var e := Replace(s, c, left).(settings := s.settings - {(actor, c)});
      ReplaceKeeps(s, e);
      AnnounceKeeps(s, e, c, actor, MemberLeft, minted, left.members.Keys, now);
    }
  }

  lemma DisbandKeeps(s: State, actor: UserId, c: ConversationId, now: Time)
    requires Inv(s)
    ensures Keeps(s, Disband(s, actor, c, now), {})
  {
    var r := Disband(s, actor, c, now);
    if r.Ok? {
      var e := s.(conversations := s.conversations - {c},
                  settings := SettingsElsewhere(s.settings, c),
                  muteAll := s.muteAll - {c});
      ReplaceKeeps(s, e);
      PublishKeeps(s, e, s.conversations[c].members.Keys, Disbanded(c), now, {});
    }
  }

  lemma EditMemberKeeps(s: State, actor: UserId, c: ConversationId, target: UserId, renamed: bool, role: Option<Role>,
                        mutedUntil: Option<Option<Time>>, minted: Minted, now: Time)
    requires Inv(s) && IsFresh(s, minted.id)
    ensures Keeps(s, EditMember(s, actor, c, target, renamed, role, mutedUntil, minted, now), {})
  {
    var r := EditMember(s, actor, c, target, renamed, role, mutedUntil, minted, now);
    if r.Ok? {
      var conversation := s.conversations[c];
      var members := conversation.members;
      var edited := Edited(members[target], role, mutedUntil);
      var e := Replace(s, c, conversation.(members := members[target := edited], updatedAt := now));
      ReplaceKeeps(s, e);
      AnnounceKeeps(s, e, c, actor, MemberSettingsUpdated, minted, members.Keys, now);
    }
  }

  lemma RemoveKeeps(s: State, actor: UserId, c: ConversationId, target: UserId, minted: Minted, now: Time)
    requires Inv(s) && IsFresh(s, minted.id)
    ensures Keeps(s, Remove(s, actor, c, target, minted, now), {})
  {
    var r := Remove(s, actor, c, target, minted, now);
    if r.Ok? {
      var removed := WithoutMember(s.conversations[c], actor, target, now).value;
      var e := Replace(s, c, removed).(settings := s.settings - {(target, c)});
      ReplaceKeeps(s, e);
      AnnounceKeeps(s, e, c, actor, MemberRemoved, minted, removed.members.Keys, now);
    }
  }

  lemma TransferKeeps(s: State, actor: UserId, c: ConversationId, target: UserId, minted: Minted, now: Time)
    requires Inv(s) && IsFresh(s, minted.id)
    ensures Keeps(s, Transfer(s, actor, c, target, minted, now), {})
  {
    var r := Transfer(s, actor, c, target, minted, now);
    if r.Ok? {
      var transferred := WithOwner(s.conversations[c], actor, target, now).value;
      var e := Replace(s, c, transferred);
      ReplaceKeeps(s, e);
      AnnounceKeeps(s, e, c, actor, OwnershipTransferred, minted, transferred.members.Keys, now);
    }
  }

  lemma MuteGroupKeeps(s: State, actor: UserId, c: ConversationId, muted: bool, minted: Minted, now: Time)
    requires Inv(s) && IsFresh(s, minted.id)
    ensures Keeps(s, MuteGroup(s, actor, c, muted, minted, now), {})
  {
    var r := MuteGroup(s, actor, c, muted, minted, now);
    if r.Ok? {
      var e := s.(muteAll := Muting(s.muteAll, c, muted));
      ReplaceKeeps(s, e);
      AnnounceKeeps(s, e, c, actor, MuteAllChanged(muted), minted, s.conversations[c].members.Keys, now);
    }
  }

  lemma AskToJoinKeeps(s: State, actor: UserId, c: ConversationId, request: RequestId, now: Time)
    requires Inv(s)
    ensures Keeps(s, AskToJoin(s, actor, c, request, now), {})
  {
  }

  lemma ReviewJoinKeeps(s: State, actor: UserId, request: RequestId, accept: bool, minted: Minted, now: Time)
    requires Inv(s) && IsFresh(s, minted.id)
    ensures Keeps(s, ReviewJoin(s, actor, request, accept, minted, now), {})
  {
    var r := ReviewJoin(s, actor, request, accept, minted, now);
    if r.Ok? {
      var JoinRequest(c, applicant, _) := s.joinRequests[request];
      var conversation := s.conversations[c];
      var recipients := conversation.members.Keys + {applicant};
      var reviewed := s.(joinRequests := s.joinRequests[request := JoinRequest(c, applicant, if accept then Accepted else Rejected)]);
      if accept {
        var e := Replace(reviewed, c, conversation.(members := conversation.members[applicant := Participant(Member, None, now)],
                                                    updatedAt := now))
                 .(settings := s.settings[(applicant, c) := DEFAULT_SETTINGS]);
        ReplaceKeeps(s, e);
        EditThenPublishKeeps(s, e, c, actor, true, MemberJoined, minted, recipients, JoinRequestUpdated(request), now);
      } else {
        ReplaceKeeps(s, reviewed);
        PublishKeeps(s, reviewed, recipients, JoinRequestUpdated(request), now, {});
      }
    }
  }

  // ----- messages -----

  lemma FindIsExact(logs: map<ConversationId, seq<Message>>, c: ConversationId, i: nat, id: MessageId)
    requires UniqueIds(logs) && HoldsAt(logs, c, i, id)
    ensures FindMessage(logs, id) == Ok(logs[c][i])
  {
    var d, j: nat :| HoldsAt(logs, d, j, id) && FindMessage(logs, id) == Ok(logs[d][j]);
    assert c == d && i == j;
  }

  lemma PostAppends(s: State, actor: UserId, c: ConversationId, request: SendRequest, id: MessageId, recipients: set<UserId>,
                    now: Time)
    requires WellPlaced(s.logs) && SyncInv(s.events, s.cursor) && IsFresh(s, id)
    requires (actor, request.clientId) !in s.dedup && Post(s, actor, c, request, id, recipients, now).Ok?
    ensures var (t, reply) := Post(s, actor, c, request, id, recipients, now).value;
            && reply.Acknowledged? && reply.message.content == request.content && Appends(s, t, reply.message, true)
            && SameElsewhere(s, t) && SyncInv(t.events, t.cursor) && s.events <= t.events
  {
    LastIsLength(s.logs, c);
    var (t, reply) := Post(s, actor, c, request, id, recipients, now).value;
    var m := reply.message;
    assert m == Message(id, request.clientId, c, actor, Some(|LogOf(s.logs, c)| + 1), request.content, Sent, request.mentions,
                        request.mentionAll, now, Some(now));
    assert t.logs == s.logs[c := LogOf(s.logs, c) + [m]];
    assert t.receipts == s.receipts[m.id := Receipt(NO_RECEIPT.deliveredTo + {m.sender}, {})];
    assert t.events == s.events + [UserEvent(recipients, Event(s.cursor + 1, MessageCreated(m), now))];
  }

  lemma AcceptedContentIsSound(s: State, actor: UserId, content: Content)
    requires AttachmentInv(s.attachments) && CheckAttachment(s, actor, content).Ok?
    ensures Sound(content, s.attachments)
  {
  }

  lemma SendKeeps(s: State, actor: UserId, c: ConversationId, request: SendRequest, id: MessageId, now: Time)
    requires Inv(s) && IsFresh(s, id)
    ensures Keeps(s, SendMessage(s, actor, c, request, id, now), {})
  {
    var r := SendMessage(s, actor, c, request, id, now);
    if r.Ok? && (actor, request.clientId) !in s.dedup {
      var recipients := Recipients(s, actor, c, request.content, now).value;
      AcceptedContentIsSound(s, actor, request.content);
      PostAppends(s, actor, c, request, id, recipients, now);
      AppendKeeps(s, r.value.0, r.value.1.message, true);
    }
  }

  lemma SourceIsSound(s: State, actor: UserId, id: MessageId, merged: bool)
    requires Inv(s)
    ensures var r := Source(s, actor, id, merged);
            r.Ok? ==> Sound(r.value.content, s.attachments) && !r.value.content.System? && (merged ==> !r.value.content.Bundle?)
  {
    var r := Source(s, actor, id, merged);
    if r.Ok? {
      var c, i: nat :| HoldsAt(s.logs, c, i, id) && FindMessage(s.logs, id) == Ok(s.logs[c][i]);
      assert Sound(s.logs[c][i].content, s.attachments);
    }
  }

  lemma {:induction false} SourcesAreSound(s: State, actor: UserId, ids: seq<MessageId>, merged: bool)
    requires Inv(s)
    ensures var r := Sources(s, actor, ids, merged);
            r.Ok? ==> forall f :: f in r.value ==>
                        Sound(f.content, s.attachments) && !f.content.System? && (merged ==> !f.content.Bundle?)
  {
    if ids != [] && Sources(s, actor, ids, merged).Ok? {
      SourceIsSound(s, actor, ids[0], merged);
      SourcesAreSound(s, actor, ids[1..], merged);
    }
  }

  lemma RestStaysFresh(s: State, t: State, m: Message, actor: UserId, minteds: seq<Minted>)
    requires AllFresh(s, actor, minteds) && minteds != [] && m.sender == actor
    requires m.id == minteds[0].id && m.clientId == minteds[0].clientId && Appends(s, t, m, true)
    ensures AllFresh(t, actor, minteds[1..])
  {
    forall i | 0 <= i < |minteds[1..]| ensures IsFresh(t, minteds[1..][i].id) {
      var x := minteds[i + 1];
      assert minteds[1..][i] == x && IsFresh(s, x.id);
      forall d, j: nat | HoldsAt(t.logs, d, j, x.id) ensures HoldsAt(s.logs, d, j, x.id) {
      }
    }
  }

  lemma AppendForwardedKeeps(s: State, actor: UserId, c: ConversationId, content: Content, minted: Minted,
                             recipients: set<UserId>, now: Time)
    requires Inv(s) && IsFresh(s, minted.id) && (actor, minted.clientId) !in s.dedup && Sound(content, s.attachments)
    ensures var r := AppendForwarded(s, actor, c, content, minted, |LogOf(s.logs, c)| + 1, recipients, now);
            r.Ok? ==> var (t, m) := r.value;
                      && Inv(t) && Evolves(s, t, {}) && t.conversations == s.conversations && t.attachments == s.attachments
                      && m.sender == actor && m.id == minted.id && m.clientId == minted.clientId && Appends(s, t, m, true)
                      && |LogOf(t.logs, c)| == |LogOf(s.logs, c)| + 1
  {
    var r := AppendForwarded(s, actor, c, content, minted, |LogOf(s.logs, c)| + 1, recipients, now);
    if r.Ok? {
      var (t, m) := r.value;
      assert Appends(s, t, m, true);
      AppendKeeps(s, t, m, true);
    }
  }

  lemma {:induction false} AppendAllKeeps(s: State, actor: UserId, c: ConversationId, contents: seq<Content>, minteds: seq<Minted>,
                                          recipients: set<UserId>, now: Time)
    requires Inv(s) && |minteds| >= |contents| && AllFresh(s, actor, minteds)
    requires forall x :: x in contents ==> Sound(x, s.attachments)
    ensures var r := AppendAll(s, actor, c, contents, minteds, |LogOf(s.logs, c)|, recipients, now);
            r.Ok? ==> Inv(r.value.0) && Evolves(s, r.value.0, {}) && r.value.0.conversations == s.conversations
    decreases |contents|
  {
    var n := |LogOf(s.logs, c)|;
    if contents != [] && AppendForwarded(s, actor, c, contents[0], minteds[0], n + 1, recipients, now).Ok? {
      AppendForwardedKeeps(s, actor, c, contents[0], minteds[0], recipients, now);
      var (next, m) := AppendForwarded(s, actor, c, contents[0], minteds[0], n + 1, recipients, now).value;
      RestStaysFresh(s, next, m, actor, minteds);
      AppendAllKeeps(next, actor, c, contents[1..], minteds[1..], recipients, now);
      var rest := AppendAll(next, actor, c, contents[1..], minteds[1..], n + 1, recipients, now);
      if rest.Ok? {
        EvolvesIsTransitive(s, next, rest.value.0, {}, {});
      }
    }
  }

  lemma TouchKeeps(s: State, e: State, c: ConversationId, now: Time)
    requires Inv(e) && Evolves(s, e, {})
    ensures Inv(Touch(e, c, now)) && Evolves(s, Touch(e, c, now), {})
  {
    ReplaceKeeps(e, Touch(e, c, now));
    EvolvesIsTransitive(s, e, Touch(e, c, now), {}, {});
  }

  lemma ContentsAreSound(sources: seq<Forwarded>, merged: bool, attachments: map<AttachmentId, StoredAttachment>)
    requires forall f :: f in sources ==> Sound(f.content, attachments) && (merged ==> !f.content.Bundle?)
    ensures forall x :: x in ForwardContents(sources, merged) ==> Sound(x, attachments)
  {
    if merged {
      assert Sound(Bundle(sources), attachments);
    } else {
      forall x | x in ForwardContents(sources, merged) ensures Sound(x, attachments) {
        var i :| 0 <= i < |sources| && x == sources[i].content;
        assert sources[i] in sources;
      }
    }
  }

  lemma ForwardKeeps(s: State, actor: UserId, ids: seq<MessageId>, c: ConversationId, merged: bool, minteds: seq<Minted>, now: Time)
    requires Inv(s) && |minteds| == |ids| && AllFresh(s, actor, minteds)
    ensures Keeps(s, Forwards(s, actor, ids, c, merged, minteds, now), {})
  {
    if Forwards(s, actor, ids, c, merged, minteds, now).Ok? {
      var sources := Sources(s, actor, ids, merged).value;
      var contents := ForwardContents(sources, merged);
      SourcesAreSound(s, actor, ids, merged);
      ContentsAreSound(sources, merged, s.attachments);
      LastIsLength(s.logs, c);
      AppendAllKeeps(s, actor, c, contents, minteds, s.conversations[c].members.Keys, now);
      TouchKeeps(s, AppendAll(s, actor, c, contents, minteds, |LogOf(s.logs, c)|, s.conversations[c].members.Keys, now).value.0, c, now);
    }
  }

  lemma RecallRestamps(s: State, actor: UserId, id: MessageId, now: Time)
    requires WellPlaced(s.logs) && RecallMessage(s, actor, id, now).Ok?
    ensures Restamps(s.logs, RecallMessage(s, actor, id, now).value.0.logs)
  {
    var d, i: nat :| HoldsAt(s.logs, d, i, id) && FindMessage(s.logs, id) == Ok(s.logs[d][i]);
    assert Placed(s.logs[d][i], d, i);
  }

  lemma RecallKeeps(s: State, actor: UserId, id: MessageId, now: Time)
    requires Inv(s)
    ensures Keeps(s, RecallMessage(s, actor, id, now), {})
  {
    var r := RecallMessage(s, actor, id, now);
    if r.Ok? {
      var t := r.value.0;
      RecallRestamps(s, actor, id, now);
      RestampLogs(s.logs, t.logs, s.dedup);
      RestampReads(s.logs, t.logs, s.receipts);
      RestampContent(s.logs, t.logs, s.attachments);
    }
  }

  lemma DeliverKeeps(s: State, actor: UserId, id: MessageId, now: Time)
    requires Inv(s)
    ensures Keeps(s, Deliver(s, actor, id, now), {})
  {
    var r := Deliver(s, actor, id, now);
    if r.Ok? {
      var t := r.value.0;
      forall d, i: nat, u ensures HasRead(t.receipts, t.logs, d, i, u) == HasRead(s.receipts, s.logs, d, i, u) {
      }
    }
  }

  // ----- read state -----

  lemma PositionAdvances(s: State, actor: UserId, c: ConversationId, next: nat)
    requires ReadInv(s.settings, s.readPositions, s.logs) && next <= |LogOf(s.logs, c)|
    ensures var k := (actor, c);
            var positions := s.readPositions[k := Max(ReadPosition(s, actor, c), next)];
            && ReadInv(s.settings[k := Settings(Max(SettingsOf(s, actor, c).lastRead, next), false)], positions, s.logs)
            && forall k :: k in s.readPositions ==> s.readPositions[k] <= Position(positions, k)
  {
  }

  lemma ReadStateKeeps(s: State, t: State)
    requires Inv(s) && t == s.(receipts := t.receipts, readPositions := t.readPositions, settings := t.settings)
    requires ReceiptInv(t.receipts, s.logs) && ReadInv(t.settings, t.readPositions, s.logs)
    requires forall k :: k in s.readPositions ==> s.readPositions[k] <= Position(t.readPositions, k)
    ensures Inv(t) && Evolves(s, t, {})
  {
  }

  lemma ReadUpToKeeps(s: State, actor: UserId, c: ConversationId, through: nat, now: Time)
    requires Inv(s)
    ensures Keeps(s, ReadUpTo(s, actor, c, through, now), {})
  {
    if ReadUpTo(s, actor, c, through, now).Ok? {
      LastIsLength(s.logs, c);
      var latest := |LogOf(s.logs, c)|;
      var next := if through < latest then through else latest;
      ReceivingReads(s, c, actor, next);
      PositionAdvances(s, actor, c, next);
      var e := Advance(s, actor, c, next);
      ReadStateKeeps(s, e);
      PublishKeeps(s, e, s.conversations[c].members.Keys, ReadThrough(actor, c, next), now, {});
    }
  }

  /** The last sequence of a log is its length, so overwriting a position with it never moves the position back. */
  lemma ReadEverythingAdvances(s: State, actor: UserId, now: Time)
    requires LogInv(s.logs, s.dedup) && ReadInv(s.settings, s.readPositions, s.logs)
    ensures var t := ReadEverything(s, actor, now).value.0;
            && ReadInv(t.settings, t.readPositions, s.logs)
            && forall k :: k in s.readPositions ==> s.readPositions[k] <= Position(t.readPositions, k)
  {
    var t := ReadEverything(s, actor, now).value.0;
    forall c ensures LastSequence(LogOf(s.logs, c)) == |LogOf(s.logs, c)| {
      LastIsLength(s.logs, c);
    }
    forall k | k in t.settings ensures t.settings[k].lastRead <= Position(t.readPositions, k) {
      assert k in ReadableKeys(s, actor) || (k in s.settings && t.settings[k] == s.settings[k]);
    }
  }

  lemma ReadEverythingKeeps(s: State, actor: UserId, now: Time)
    requires Inv(s)
    ensures Keeps(s, ReadEverything(s, actor, now), {})
  {
    ReadEverythingAdvances(s, actor, now);
  }

  lemma ChangeSettingsKeeps(s: State, actor: UserId, c: ConversationId, manuallyUnread: Option<bool>, now: Time)
    requires Inv(s)
    ensures Keeps(s, ChangeSettings(s, actor, c, manuallyUnread, now), {})
  {
  }

  // ----- schedules and attachments -----

  lemma {:induction false} RetainIsSublist<T>(xs: seq<T>, keep: T -> bool)
    ensures forall x :: x in Retain(xs, keep) <==> x in xs && keep(x)
    ensures |Retain(xs, keep)| <= |xs|
  {
    if xs != [] {
      RetainIsSublist(xs[..|xs| - 1], keep);
      assert xs == xs[..|xs| - 1] + [xs[|xs| - 1]];
    }
  }

  lemma {:induction false} RetainKeepsSchedule(xs: seq<Scheduled>, keep: Scheduled -> bool)
    requires ScheduleInv(xs)
    ensures ScheduleInv(Retain(xs, keep))
  {
    if xs != [] {
      var front, last := xs[..|xs| - 1], xs[|xs| - 1];
      RetainKeepsSchedule(front, keep);
      RetainIsSublist(front, keep);
      var kept := Retain(front, keep);
      forall i | 0 <= i < |kept| ensures kept[i].id != last.id && !SameKey(kept[i], last.actor, last.request.clientId) {
        assert kept[i] in front;
      }
    }
  }

  lemma ScheduleKeeps(s: State, item: Scheduled, now: Time)
    requires Inv(s) && forall e :: e in s.scheduled ==> e.id != item.id
    ensures Keeps(s, ScheduleMessage(s, item, now), {})
  {
    var r := ScheduleMessage(s, item, now);
    if r.Ok? {
      forall i | 0 <= i < |s.scheduled|
        ensures s.scheduled[i].id != item.id && !SameKey(s.scheduled[i], item.actor, item.request.clientId)
      {
        assert s.scheduled[i] in s.scheduled;
      }
    }
  }

  lemma RetainKeeps(s: State, keep: Scheduled -> bool)
    requires Inv(s)
    ensures var t := s.(scheduled := Retain(s.scheduled, keep)); Inv(t) && Evolves(s, t, {})
  {
    RetainKeepsSchedule(s.scheduled, keep);
  }

  lemma {:induction false} SoundAsAttachmentsStay(content: Content, a: map<AttachmentId, StoredAttachment>,
                                                  b: map<AttachmentId, StoredAttachment>)
    requires Sound(content, a) && AttachmentsStay(a, b)
    ensures Sound(content, b)
  {
    if content.Bundle? {
      forall m | m in content.messages ensures Sound(m.content, b) {
        SoundAsAttachmentsStay(m.content, a, b);
      }
    }
  }

  lemma AttachmentsKeep(s: State, t: State)
    requires Inv(s) && t == s.(attachments := t.attachments)
    requires AttachmentInv(t.attachments) && AttachmentsStay(s.attachments, t.attachments)
    ensures Inv(t) && Evolves(s, t, {})
  {
    forall c, i: nat | c in t.logs && i < |t.logs[c]| ensures Sound(t.logs[c][i].content, t.attachments) {
      SoundAsAttachmentsStay(s.logs[c][i].content, s.attachments, t.attachments);
    }
  }

  lemma AuthorizeKeeps(s: State, actor: UserId, id: AttachmentId, byteSize: nat, metadata: string, now: Time)
    requires Inv(s) && id !in s.attachments
    ensures Keeps(s, Authorize(s, actor, id, byteSize, metadata, now), {})
  {
    AttachmentsKeep(s, Authorize(s, actor, id, byteSize, metadata, now).value.0);
  }

  lemma CompleteKeeps(s: State, actor: UserId, id: AttachmentId, now: Time)
    requires Inv(s)
    ensures Keeps(s, Complete(s, actor, id, now), {})
  {
    if Complete(s, actor, id, now).Ok? {
      AttachmentsKeep(s, Complete(s, actor, id, now).value.0);
    }
  }

  lemma QuarantineKeeps(s: State, actor: UserId, id: AttachmentId, now: Time)
    requires Inv(s)
    ensures Keeps(s, Quarantine(s, actor, id, now), {})
  {
    if Quarantine(s, actor, id, now).Ok? {
      AttachmentsKeep(s, Quarantine(s, actor, id, now).value.0);
    }
  }

  lemma CleanupKeeps(s: State, now: Time)
    requires Inv(s)
    ensures Keeps(s, Cleanup(s, now), {})
  {
    AttachmentsKeep(s, Cleanup(s, now).value.0);
  }

  // ----- account deletion -----

  lemma DeleteKeeps(s: State, actor: UserId, passwordMatches: bool, now: Time)
    requires Inv(s)
    ensures Keeps(s, Delete(s, actor, passwordMatches, now), {actor})
  {
    var r := Delete(s, actor, passwordMatches, now);
    if r.Ok? {
      var t := r.value.0;
      RetainKeepsSchedule(s.scheduled, (e: Scheduled) => e.actor != actor);
      forall c | c in t.conversations && t.conversations[c].kind.Group? ensures HasAtMostOneOwner(t.conversations[c].members) {
        DetachKeepsAtMostOneOwner(s.conversations[c], actor, now);
      }
      forall k | k in t.settings ensures t.settings[k].lastRead <= Position(t.readPositions, k) {
        assert s.settings[k].lastRead <= Position(s.readPositions, k);
      }
    }
  }

  // ----- every operation, every run -----

  function Deletes(op: Op): set<UserId> {
    if op.DeleteAccount? then {op.actor} else {}
  }

  lemma GroupOpKeeps(s: State, op: Op, now: Time)
    requires Inv(s) && FreshIds(s, op) && EditsGroups(op)
    ensures Keeps(s, ApplyToGroup(s, op, now), {})
  {
    match op {
      case UpdateGroup(actor, c, described, minted) => EditGroupKeeps(s, actor, c, described, minted, now);
      case AddMembers(actor, c, invited, minted) => InviteMembersKeeps(s, actor, c, invited, minted, now);
      case LeaveGroup(actor, c, minted) => LeaveKeeps(s, actor, c, minted, now);
      case DisbandGroup(actor, c) => DisbandKeeps(s, actor, c, now);
      case UpdateMember(actor, c, target, renamed, role, mutedUntil, minted) =>
        EditMemberKeeps(s, actor, c, target, renamed, role, mutedUntil, minted, now);
      case RemoveMember(actor, c, target, minted) => RemoveKeeps(s, actor, c, target, minted, now);
      case TransferOwnership(actor, c, target, minted) => TransferKeeps(s, actor, c, target, minted, now);
      case SetMuteAll(actor, c, muted, minted) => MuteGroupKeeps(s, actor, c, muted, minted, now);
      case RequestJoin(actor, c, request) => AskToJoinKeeps(s, actor, c, request, now);
      case DecideJoin(actor, request, accept, minted) => ReviewJoinKeeps(s, actor, request, accept, minted, now);
    }
  }

  lemma MessageOpKeeps(s: State, op: Op, now: Time)
    requires Inv(s) && FreshIds(s, op) && MintsEnough(op) && HandlesMessages(op)
    ensures Keeps(s, ApplyToMessages(s, op, now), {})
  {
    match op {
      case Send(actor, c, sent, id) => SendKeeps(s, actor, c, sent, id, now);
      case Forward(actor, sources, c, merged, minteds) => ForwardKeeps(s, actor, sources, c, merged, minteds, now);
      case Recall(actor, id) => RecallKeeps(s, actor, id, now);
      case AcknowledgeDelivery(actor, id) => DeliverKeeps(s, actor, id, now);
      case MarkRead(actor, c, through) => ReadUpToKeeps(s, actor, c, through, now);
      case MarkAllRead(actor) => ReadEverythingKeeps(s, actor, now);
      case UpdateSettings(actor, c, manuallyUnread) => ChangeSettingsKeeps(s, actor, c, manuallyUnread, now);
      case Schedule(item) => ScheduleKeeps(s, item, now);
      case CancelScheduled(actor, request) =>
        RetainKeeps(s, (e: Scheduled) => !(e.id == request && e.actor == actor));
      case DropScheduled(request) =>
        RetainKeeps(s, (e: Scheduled) => e.id != request);
    }
  }

  lemma OtherOpKeeps(s: State, op: Op, now: Time)
    requires Inv(s) && FreshIds(s, op) && MintsEnough(op) && !EditsGroups(op) && !HandlesMessages(op)
    ensures Keeps(s, ApplyToAccounts(s, op, now), Deletes(op))
  {
    match op {
      case Register(user, nickname) => RegisterKeeps(s, user, nickname);
      case ChangeRelations(friends, blocks, refuses, notified) => RelationsKeep(s, friends, blocks, refuses, notified, now);
      case AcceptFriend(sender, recipient, c) => BecomeFriendsKeeps(s, sender, recipient, c, now);
      case CreateDirect(actor, peer, c) => OpenDirectKeeps(s, actor, peer, c, now);
      case CreateGroup(actor, invited, c) => OpenGroupKeeps(s, actor, invited, c, now);
      case DeleteAccount(actor, passwordMatches) => DeleteKeeps(s, actor, passwordMatches, now);
      case AuthorizeAttachment(actor, id, byteSize, metadata) => AuthorizeKeeps(s, actor, id, byteSize, metadata, now);
      case CompleteAttachment(actor, id) => CompleteKeeps(s, actor, id, now);
      case QuarantineAttachment(actor, id) => QuarantineKeeps(s, actor, id, now);
      case CleanupAttachments => CleanupKeeps(s, now);
    }
  }

  lemma ApplyKeeps(s: State, op: Op, now: Time)
    requires Inv(s) && FreshIds(s, op) && MintsEnough(op)
    ensures Keeps(s, Apply(s, op, now), Deletes(op))
  {
    if EditsGroups(op) {
      GroupOpKeeps(s, op, now);
    } else if HandlesMessages(op) {
      MessageOpKeeps(s, op, now);
    } else {
      OtherOpKeeps(s, op, now);
    }
  }

  /** One operation, committed or rolled back, keeps the invariant, and only grows what clients have already seen. */
  lemma StepKeeps(s: State, op: Op, now: Time)
    requires Inv(s) && FreshIds(s, op) && MintsEnough(op)
    ensures Inv(Step(s, op, now)) && Evolves(s, Step(s, op, now), Deletes(op))
  {
    ApplyKeeps(s, op, now);
    EvolvesIsReflexive(s, Deletes(op));
  }
}
