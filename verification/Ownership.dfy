/** Group ownership over every run: exactly one owner, and the one operation that can lose it. */
module Ownership {
  import opened Domain
  import opened Membership
  import opened ServerState
  import opened ServerInvariants
  import opened ServerRuns
  import opened ServerTheorems

  ghost predicate IsOwned(conversation: Conversation) {
    conversation.kind.Group? && conversation.members != map[] ==> HasOneOwner(conversation.members)
  }

  /** Every group somebody is in has exactly one owner. */
  ghost predicate Owned(conversations: map<ConversationId, Conversation>) {
    forall c :: c in conversations ==> IsOwned(conversations[c])
  }

  /** Accepting the join request of someone who has meanwhile become the owner of the group. */
  predicate ReacceptsOwner(s: State, op: Op) {
    && op.DecideJoin? && op.accept && op.request in s.joinRequests
    && s.joinRequests[op.request].status == Waiting
    && var c := s.joinRequests[op.request].conversation;
       && c in s.conversations && s.conversations[c].kind.Group?
       && s.conversations[c].HasRoleAtLeast(op.actor, Administrator)
       && s.conversations[c].HasRole(s.joinRequests[op.request].applicant, Owner)
  }

  lemma AnnounceOwnership(e: State, c: ConversationId, actor: UserId, notice: Notice, minted: Minted, recipients: set<UserId>,
                          now: Time)
    requires c in e.conversations
    ensures var r := Announce(e, c, actor, notice, minted, recipients, now);
            r.Ok? && (Owned(r.value.0.conversations) <==> Owned(e.conversations))
  {
    var t := Announce(e, c, actor, notice, minted, recipients, now).value.0;
    forall d | d in e.conversations ensures IsOwned(t.conversations[d]) <==> IsOwned(e.conversations[d]) {
    }
  }

  lemma NoticeOwnership(e: State, c: ConversationId, actor: UserId, notice: Notice, minted: Minted, now: Time)
    requires c in e.conversations
    ensures var r := PostNotice(e, c, actor, notice, minted, now);
            r.Ok? && (Owned(r.value.conversations) <==> Owned(e.conversations))
  {
    var t := PostNotice(e, c, actor, notice, minted, now).value;
    forall d | d in e.conversations ensures IsOwned(t.conversations[d]) <==> IsOwned(e.conversations[d]) {
    }
  }

  lemma LeaveOwnership(s: State, actor: UserId, c: ConversationId, minted: Minted, now: Time)
    requires Owned(s.conversations) && Leave(s, actor, c, minted, now).Ok?
    ensures Owned(Leave(s, actor, c, minted, now).value.0.conversations)
  {
    var conversation := s.conversations[c];
    var left := conversation.(members := conversation.members - {actor}, updatedAt := now);
    var owner :| OwnedBy(conversation.members, owner);
    assert OwnedBy(left.members, owner);
    AnnounceOwnership(Replace(s, c, left).(settings := s.settings - {(actor, c)}), c, actor, MemberLeft, minted, left.members.Keys, now);
  }

  lemma EditMemberOwnership(s: State, actor: UserId, c: ConversationId, target: UserId, renamed: bool, role: Option<Role>,
                            mutedUntil: Option<Option<Time>>, minted: Minted, now: Time)
    requires Owned(s.conversations) && EditMember(s, actor, c, target, renamed, role, mutedUntil, minted, now).Ok?
    ensures Owned(EditMember(s, actor, c, target, renamed, role, mutedUntil, minted, now).value.0.conversations)
  {
    var conversation := s.conversations[c];
    var members := conversation.members;
    var edited := members[target := Edited(members[target], role, mutedUntil)];
    var owner :| OwnedBy(members, owner);
    assert OwnedBy(edited, owner);
    AnnounceOwnership(Replace(s, c, conversation.(members := edited, updatedAt := now)), c, actor, MemberSettingsUpdated, minted,
                      members.Keys, now);
  }

  lemma RemoveOwnership(s: State, actor: UserId, c: ConversationId, target: UserId, minted: Minted, now: Time)
    requires Owned(s.conversations) && Remove(s, actor, c, target, minted, now).Ok?
    ensures Owned(Remove(s, actor, c, target, minted, now).value.0.conversations)
  {
    var removed := WithoutMember(s.conversations[c], actor, target, now).value;
    var owner :| OwnedBy(s.conversations[c].members, owner);
    RemovalKeepsTheOwner(s.conversations[c], actor, target, now, owner);
    AnnounceOwnership(Replace(s, c, removed).(settings := s.settings - {(target, c)}), c, actor, MemberRemoved, minted,
                      removed.members.Keys, now);
  }

  lemma TransferOwnershipOwnership(s: State, actor: UserId, c: ConversationId, target: UserId, minted: Minted, now: Time)
    requires Owned(s.conversations) && Transfer(s, actor, c, target, minted, now).Ok?
    ensures Owned(Transfer(s, actor, c, target, minted, now).value.0.conversations)
  {
    var transferred := WithOwner(s.conversations[c], actor, target, now).value;
    var owner :| OwnedBy(s.conversations[c].members, owner);
    TransferMovesOwnership(s.conversations[c], actor, target, now, owner);
    AnnounceOwnership(Replace(s, c, transferred), c, actor, OwnershipTransferred, minted, transferred.members.Keys, now);
  }

  lemma WelcomeOwnership(s: State, actor: UserId, c: ConversationId, admitted: Conversation, newcomers: set<UserId>,
                         minted: Minted, now: Time)
    requires Owned(s.conversations) && IsOwned(admitted)
    ensures var r := Welcome(s, actor, c, admitted, newcomers, minted, now); r.Ok? ==> Owned(r.value.0.conversations)
  {
    var e := Replace(s, c, admitted).(settings := s.settings + Defaults(NewKeys(c, newcomers)));
    NoticeOwnership(e, c, actor, MembersInvited(|newcomers|), minted, now);
  }

  lemma AdmitOwnership(conversation: Conversation, newcomers: set<UserId>, now: Time)
    requires HasOneOwner(conversation.members) && newcomers !! conversation.members.Keys
    ensures IsOwned(Admit(conversation, newcomers, now))
  {
    var owner :| OwnedBy(conversation.members, owner);
    assert OwnedBy(Admit(conversation, newcomers, now).members, owner);
  }

  lemma InviteOwnership(s: State, actor: UserId, c: ConversationId, invited: seq<UserId>, minted: Minted, now: Time)
    requires Owned(s.conversations)
    ensures var r := InviteMembers(s, actor, c, invited, minted, now); r.Ok? ==> Owned(r.value.0.conversations)
  {
    if FindGroup(s, c).Ok? && s.conversations[c].CanRead(actor) {
      var newcomers := Newcomers(s.conversations[c], invited);
      assert IsOwned(s.conversations[c]);
      AdmitOwnership(s.conversations[c], newcomers, now);
      WelcomeOwnership(s, actor, c, Admit(s.conversations[c], newcomers, now), newcomers, minted, now);
    }
  }

  lemma EditGroupOwnership(s: State, actor: UserId, c: ConversationId, described: bool, minted: Minted, now: Time)
    requires Owned(s.conversations) && EditGroup(s, actor, c, described, minted, now).Ok?
    ensures Owned(EditGroup(s, actor, c, described, minted, now).value.0.conversations)
  {
    var e := Replace(s, c, s.conversations[c].(updatedAt := now));
    assert Owned(e.conversations);
    NoticeOwnership(e, c, actor, GroupUpdated, minted, now);
  }

  lemma MuteGroupOwnership(s: State, actor: UserId, c: ConversationId, muted: bool, minted: Minted, now: Time)
    requires Owned(s.conversations)
    ensures var r := MuteGroup(s, actor, c, muted, minted, now); r.Ok? ==> Owned(r.value.0.conversations)
  {
    if c in s.conversations {
      var e := s.(muteAll := Muting(s.muteAll, c, muted));
      AnnounceOwnership(e, c, actor, MuteAllChanged(muted), minted, s.conversations[c].members.Keys, now);
    }
  }

  lemma DisbandOwnership(s: State, actor: UserId, c: ConversationId, now: Time)
    requires Owned(s.conversations)
    ensures var r := Disband(s, actor, c, now); r.Ok? ==> Owned(r.value.0.conversations)
  {
  }

  lemma AskToJoinOwnership(s: State, actor: UserId, c: ConversationId, request: RequestId, now: Time)
    requires Owned(s.conversations)
    ensures var r := AskToJoin(s, actor, c, request, now); r.Ok? ==> Owned(r.value.0.conversations)
  {
  }

  /** A reviewed join request keeps ownership exactly when it does not accept the current owner. */
  lemma ReviewJoinOwnership(s: State, actor: UserId, request: RequestId, accept: bool, minted: Minted, now: Time)
    requires Owned(s.conversations) && ReviewJoin(s, actor, request, accept, minted, now).Ok?
    ensures Owned(ReviewJoin(s, actor, request, accept, minted, now).value.0.conversations)
            <==> !ReacceptsOwner(s, DecideJoin(actor, request, accept, minted))
  {
    var JoinRequest(c, applicant, _) := s.joinRequests[request];
    if accept {
      var conversation := s.conversations[c];
      var members := conversation.members[applicant := Participant(Member, None, now)];
      var e := Replace(s.(joinRequests := s.joinRequests[request := JoinRequest(c, applicant, Accepted)]), c,
                       conversation.(members := members, updatedAt := now))
               .(settings := s.settings[(applicant, c) := DEFAULT_SETTINGS]);
      NoticeOwnership(e, c, actor, MemberJoined, minted, now);
      if conversation.kind.Group? {
        var owner :| OwnedBy(conversation.members, owner);
        if owner == applicant {
          assert applicant in members && !HasOneOwner(members);
          assert !IsOwned(e.conversations[c]);
        } else {
          assert OwnedBy(members, owner);
        }
      }
    }
  }

  lemma DeleteOwnership(s: State, actor: UserId, passwordMatches: bool, now: Time)
    requires Owned(s.conversations) && Delete(s, actor, passwordMatches, now).Ok?
    ensures Owned(Delete(s, actor, passwordMatches, now).value.0.conversations)
  {
    forall c | c in s.conversations ensures IsOwned(Detached(s.conversations[c], actor, now)) {
      if s.conversations[c].kind.Group? && s.conversations[c].members != map[] {
        DetachKeepsOneOwner(s.conversations[c], actor, now);
      }
    }
  }

  lemma StoreOwnership(s: State, c: ConversationId, conversation: Conversation)
    requires Owned(s.conversations) && IsOwned(conversation)
    ensures Owned(StoreConversation(s, c, conversation).conversations)
  {
  }

  lemma OpenGroupOwnership(s: State, actor: UserId, invited: seq<UserId>, c: ConversationId, now: Time)
    requires Owned(s.conversations)
    ensures var r := OpenGroup(s, actor, invited, c, now); r.Ok? ==> Owned(r.value.0.conversations)
  {
    FoundingHasOneOwner(actor, invited, now);
    StoreOwnership(s, c, Conversation(Group, FoundingMembers(actor, invited, now), now));
  }

  lemma OpenDirectOwnership(s: State, actor: UserId, peer: UserId, c: ConversationId, now: Time)
    requires Owned(s.conversations)
    ensures var r := OpenDirect(s, actor, peer, c, now); r.Ok? ==> Owned(r.value.0.conversations)
  {
    if DirectOf(actor, peer, now).Ok? {
      StoreOwnership(s, c, DirectOf(actor, peer, now).value);
    }
  }

  lemma BecomeFriendsOwnership(s: State, sender: UserId, recipient: UserId, c: ConversationId, now: Time)
    requires Owned(s.conversations)
    ensures var r := BecomeFriends(s, sender, recipient, c, now); r.Ok? ==> Owned(r.value.0.conversations)
  {
  }

  lemma {:induction false} AppendAllKeepsConversations(s: State, actor: UserId, c: ConversationId, contents: seq<Content>,
                                                       minteds: seq<Minted>, last: nat, recipients: set<UserId>, now: Time)
    requires |minteds| >= |contents|
    ensures var r := AppendAll(s, actor, c, contents, minteds, last, recipients, now);
            r.Ok? ==> r.value.0.conversations == s.conversations
    decreases |contents|
  {
    if contents != [] {
      var first := AppendForwarded(s, actor, c, contents[0], minteds[0], last + 1, recipients, now);
      if first.Ok? {
        AppendAllKeepsConversations(first.value.0, actor, c, contents[1..], minteds[1..], last + 1, recipients, now);
      }
    }
  }

  ghost predicate SameMembers(a: map<ConversationId, Conversation>, b: map<ConversationId, Conversation>) {
    a.Keys == b.Keys && forall c :: c in a ==> a[c].members == b[c].members && a[c].kind == b[c].kind
  }

  lemma ForwardKeepsMembers(s: State, actor: UserId, ids: seq<MessageId>, c: ConversationId, merged: bool, minteds: seq<Minted>,
                            now: Time)
    requires |minteds| == |ids| && Forwards(s, actor, ids, c, merged, minteds, now).Ok?
    ensures SameMembers(s.conversations, Forwards(s, actor, ids, c, merged, minteds, now).value.0.conversations)
  {
    var sources := Sources(s, actor, ids, merged).value;
    AppendAllKeepsConversations(s, actor, c, ForwardContents(sources, merged), minteds, LastSequence(LogOf(s.logs, c)),
                                s.conversations[c].members.Keys, now);
  }

  lemma PostKeepsMembers(s: State, actor: UserId, c: ConversationId, request: SendRequest, id: MessageId, recipients: set<UserId>,
                         now: Time)
    ensures var r := Post(s, actor, c, request, id, recipients, now); r.Ok? ==> SameMembers(s.conversations, r.value.0.conversations)
  {
  }

  lemma SendKeepsMembers(s: State, actor: UserId, c: ConversationId, request: SendRequest, id: MessageId, now: Time)
    ensures var r := SendMessage(s, actor, c, request, id, now); r.Ok? ==> SameMembers(s.conversations, r.value.0.conversations)
  {
    var r := Recipients(s, actor, c, request.content, now);
    if r.Ok? {
      PostKeepsMembers(s, actor, c, request, id, r.value, now);
    }
  }

  /** Operations on messages change neither who is in a conversation nor with which role. */
  lemma MessagesKeepMembers(s: State, op: Op, now: Time)
    requires MintsEnough(op) && HandlesMessages(op) && ApplyToMessages(s, op, now).Ok?
    ensures SameMembers(s.conversations, ApplyToMessages(s, op, now).value.0.conversations)
  {
    match op {
      case Send(actor, c, sent, id) => SendKeepsMembers(s, actor, c, sent, id, now);
      case Forward(actor, sources, c, merged, minteds) => ForwardKeepsMembers(s, actor, sources, c, merged, minteds, now);
      case _ =>
    }
  }

  lemma SameMembersOwnership(a: map<ConversationId, Conversation>, b: map<ConversationId, Conversation>)
    requires SameMembers(a, b) && Owned(a)
    ensures Owned(b)
  {
    forall c | c in b ensures IsOwned(b[c]) {
      assert IsOwned(a[c]);
    }
  }

  lemma GroupOpOwnership(s: State, op: Op, now: Time)
    requires Owned(s.conversations) && EditsGroups(op) && ApplyToGroup(s, op, now).Ok?
    ensures Owned(ApplyToGroup(s, op, now).value.0.conversations) <==> !ReacceptsOwner(s, op)
  {
    match op {
      case UpdateGroup(actor, c, described, minted) => EditGroupOwnership(s, actor, c, described, minted, now);
      case AddMembers(actor, c, invited, minted) => InviteOwnership(s, actor, c, invited, minted, now);
      case LeaveGroup(actor, c, minted) => LeaveOwnership(s, actor, c, minted, now);
      case UpdateMember(actor, c, target, renamed, role, mutedUntil, minted) =>
        EditMemberOwnership(s, actor, c, target, renamed, role, mutedUntil, minted, now);
      case RemoveMember(actor, c, target, minted) => RemoveOwnership(s, actor, c, target, minted, now);
      case TransferOwnership(actor, c, target, minted) => TransferOwnershipOwnership(s, actor, c, target, minted, now);
      case DecideJoin(actor, request, accept, minted) => ReviewJoinOwnership(s, actor, request, accept, minted, now);
      case SetMuteAll(actor, c, muted, minted) => MuteGroupOwnership(s, actor, c, muted, minted, now);
      case DisbandGroup(actor, c) => DisbandOwnership(s, actor, c, now);
      case RequestJoin(actor, c, request) => AskToJoinOwnership(s, actor, c, request, now);
    }
  }

  lemma OtherOpOwnership(s: State, op: Op, now: Time)
    requires Owned(s.conversations) && MintsEnough(op) && !EditsGroups(op) && !HandlesMessages(op)
            && ApplyToAccounts(s, op, now).Ok?
    ensures Owned(ApplyToAccounts(s, op, now).value.0.conversations)
  {
    match op {
      case AcceptFriend(sender, recipient, c) => BecomeFriendsOwnership(s, sender, recipient, c, now);
      case CreateDirect(actor, peer, c) => OpenDirectOwnership(s, actor, peer, c, now);
      case CreateGroup(actor, invited, c) => OpenGroupOwnership(s, actor, invited, c, now);
      case DeleteAccount(actor, passwordMatches) => DeleteOwnership(s, actor, passwordMatches, now);
      case _ =>
    }
  }

  /** An operation keeps exactly one owner in every non-empty group if and only if it does not re-accept an owner. */
  lemma StepKeepsOwnershipExactly(s: State, op: Op, now: Time)
    requires Owned(s.conversations) && MintsEnough(op)
    ensures Owned(Step(s, op, now).conversations) <==> !ReacceptsOwner(s, op)
  {
    if Apply(s, op, now).Err? {
      if ReacceptsOwner(s, op) {
        ReacceptingSucceeds(s, op, now);
      }
    } else if EditsGroups(op) {
      GroupOpOwnership(s, op, now);
    } else if HandlesMessages(op) {
      MessagesKeepMembers(s, op, now);
      SameMembersOwnership(s.conversations, Step(s, op, now).conversations);
    } else {
      OtherOpOwnership(s, op, now);
    }
  }

  lemma ReacceptingSucceeds(s: State, op: Op, now: Time)
    requires MintsEnough(op) && ReacceptsOwner(s, op)
    ensures Apply(s, op, now).Ok?
  {
  }

  ghost predicate NeverReaccepts(s: State, calls: seq<Call>)
    requires Possible(s, calls)
    decreases |calls|
  {
    calls == []
    || (!ReacceptsOwner(s, calls[0].op) && NeverReaccepts(Step(s, calls[0].op, calls[0].now), calls[1..]))
  }

  /** Over every run without such a re-acceptance, each non-empty group has exactly one owner. */
  lemma {:induction false} RunKeepsOwnership(s: State, calls: seq<Call>)
    requires Owned(s.conversations) && Possible(s, calls) && NeverReaccepts(s, calls)
    ensures Owned(Run(s, calls).conversations)
    decreases |calls|
  {
    if calls != [] {
      StepKeepsOwnershipExactly(s, calls[0].op, calls[0].now);
      RunKeepsOwnership(Step(s, calls[0].op, calls[0].now), calls[1..]);
    }
  }

  /** Without any proviso, no group ever has two owners. */
  lemma NeverTwoOwners(calls: seq<Call>, c: ConversationId)
    requires Possible(EMPTY, calls)
    ensures var s := Run(EMPTY, calls);
            c in s.conversations && s.conversations[c].kind.Group? ==> HasAtMostOneOwner(s.conversations[c].members)
  {
    EmptyStoreIsGood();
    RunKeeps(EMPTY, calls);
  }

  // ----- a run that loses the owner -----

  ghost predicate Reachable(s: State) {
    exists calls :: Possible(EMPTY, calls) && Run(EMPTY, calls) == s
  }

  lemma {:induction false} RunExtends(s: State, calls: seq<Call>, call: Call)
    requires Possible(s, calls) && MintsEnough(call.op) && FreshIds(Run(s, calls), call.op)
    ensures Possible(s, calls + [call]) && Run(s, calls + [call]) == Step(Run(s, calls), call.op, call.now)
    decreases |calls|
  {
    var longer := calls + [call];
    if calls == [] {
      assert longer[1..] == [];
    } else {
      assert longer[1..] == calls[1..] + [call];
      RunExtends(Step(s, calls[0].op, calls[0].now), calls[1..], call);
    }
  }

  lemma ReachableSteps(s: State, op: Op, now: Time)
    requires Reachable(s) && MintsEnough(op) && FreshIds(s, op)
    ensures Reachable(Step(s, op, now))
  {
    var calls :| Possible(EMPTY, calls) && Run(EMPTY, calls) == s;
    RunExtends(EMPTY, calls, Call(op, now));
  }

  const TEAM := 20
  const FOUNDER := 1
  const COLLEAGUE := 2
  const APPLICANT := 3
  const REQUEST := 5

  const PAIR := map[FOUNDER := Participant(Owner, None, 0), COLLEAGUE := Participant(Member, None, 0)]
  const TRIO := PAIR[APPLICANT := Participant(Member, None, 0)]

  /** No message yet, the third account registered, and the founder a friend of both others. */
  ghost predicate IsPrepared(s: State) {
    && Reachable(s) && s.logs == map[] && s.receipts == map[] && s.joinRequests == map[]
    && APPLICANT in s.accounts && (FOUNDER, COLLEAGUE) in s.friends && (FOUNDER, APPLICANT) in s.friends
  }

  lemma Befriends(s: State, peer: UserId, c: ConversationId) returns (t: State)
    requires Reachable(s) && peer != FOUNDER
    ensures Reachable(t) && t.logs == s.logs && t.receipts == s.receipts && t.joinRequests == s.joinRequests
    ensures t.accounts == s.accounts && t.friends == s.friends + {(FOUNDER, peer)}
  {
    ReachableSteps(s, AcceptFriend(FOUNDER, peer, c), 0);
    t := Step(s, AcceptFriend(FOUNDER, peer, c), 0);
  }

  lemma FriendsAreMade() returns (s: State)
    ensures IsPrepared(s)
  {
    assert Possible(EMPTY, []) && Run(EMPTY, []) == EMPTY;
    ReachableSteps(EMPTY, Register(APPLICANT, "c"), 0);
    s := Step(EMPTY, Register(APPLICANT, "c"), 0);
    s := Befriends(s, COLLEAGUE, 10);
    s := Befriends(s, APPLICANT, 11);
  }

  lemma PairIsFounded()
    ensures GroupOf(FOUNDER, [COLLEAGUE], 0) == Ok(Conversation(Group, PAIR, 0))
  {
    assert FoundingMembers(FOUNDER, [COLLEAGUE], 0) == PAIR;
    assert |PAIR| == 2;
  }

  lemma FounderOpens(s: State)
    requires (FOUNDER, COLLEAGUE) in s.friends
    ensures OpenGroup(s, FOUNDER, [COLLEAGUE], TEAM, 0)
            == Ok((Publish(StoreConversation(s, TEAM, Conversation(Group, PAIR, 0)), PAIR.Keys, ConversationUpdated(TEAM), 0), Done))
  {
    PairIsFounded();
    assert AreFriends(s, FOUNDER, COLLEAGUE);
  }

  lemma GroupIsFounded() returns (s: State)
    ensures IsPrepared(s) && TEAM in s.conversations && s.conversations[TEAM] == Conversation(Group, PAIR, 0)
  {
    var before := FriendsAreMade();
    FounderOpens(before);
    ReachableSteps(before, CreateGroup(FOUNDER, [COLLEAGUE], TEAM), 0);
    s := Step(before, CreateGroup(FOUNDER, [COLLEAGUE], TEAM), 0);
  }

  ghost predicate HasApplied(s: State) {
    REQUEST in s.joinRequests && s.joinRequests[REQUEST] == JoinRequest(TEAM, APPLICANT, Waiting)
  }

  lemma ApplicantAsks() returns (s: State)
    ensures Reachable(s) && s.logs == map[] && s.receipts == map[] && HasApplied(s)
    ensures APPLICANT in s.accounts && (FOUNDER, APPLICANT) in s.friends
    ensures TEAM in s.conversations && s.conversations[TEAM] == Conversation(Group, PAIR, 0)
  {
    var before := GroupIsFounded();
    ReachableSteps(before, RequestJoin(APPLICANT, TEAM, REQUEST), 0);
    s := Step(before, RequestJoin(APPLICANT, TEAM, REQUEST), 0);
  }

  lemma ApplicantIsAcceptable(s: State)
    requires APPLICANT in s.accounts && (FOUNDER, APPLICANT) in s.friends
    ensures CheckInvited(s, FOUNDER, [APPLICANT]).Ok?
  {
    assert AreFriends(s, FOUNDER, APPLICANT);
    assert [APPLICANT][1..] == [];
  }

  lemma TrioIsAdmitted()
    ensures var conversation := Conversation(Group, PAIR, 0);
            && Newcomers(conversation, [APPLICANT]) == {APPLICANT}
            && Admit(conversation, {APPLICANT}, 0) == Conversation(Group, TRIO, 0) && |TRIO| == 3
  {
    assert Newcomers(Conversation(Group, PAIR, 0), [APPLICANT]) == {APPLICANT};
    assert Admit(Conversation(Group, PAIR, 0), {APPLICANT}, 0).members == TRIO;
  }

  lemma FounderWelcomes(s: State, minted: Minted)
    requires APPLICANT in s.accounts && (FOUNDER, APPLICANT) in s.friends
    requires TEAM in s.conversations && s.conversations[TEAM] == Conversation(Group, PAIR, 0)
    ensures InviteMembers(s, FOUNDER, TEAM, [APPLICANT], minted, 0)
            == Welcome(s, FOUNDER, TEAM, Conversation(Group, TRIO, 0), {APPLICANT}, minted, 0)
  {
    ApplicantIsAcceptable(s);
    TrioIsAdmitted();
  }

  /** A notice touches its conversation and uses up one message id. */
  lemma NoticeLeaves(s: State, c: ConversationId, actor: UserId, notice: Notice, minted: Minted, other: MessageId)
    requires c in s.conversations && IsFresh(s, other) && other != minted.id
    ensures var r := PostNotice(s, c, actor, notice, minted, 0);
            && r.Ok? && r.value.joinRequests == s.joinRequests && IsFresh(r.value, other)
            && r.value.conversations == s.conversations[c := s.conversations[c].(updatedAt := 0)]
  {
    var t := PostNotice(s, c, actor, notice, minted, 0).value;
    forall d, i: nat ensures !HoldsAt(t.logs, d, i, other) {
      if HoldsAt(t.logs, d, i, other) && i < |LogOf(s.logs, d)| {
        assert HoldsAt(s.logs, d, i, other);
      }
    }
  }

  lemma WelcomeLeaves(s: State)
    requires TEAM in s.conversations && IsFresh(s, 1) && IsFresh(s, 2) && IsFresh(s, 3)
    ensures var r := Welcome(s, FOUNDER, TEAM, Conversation(Group, TRIO, 0), {APPLICANT}, Minted(1, 1), 0);
            && r.Ok? && r.value.0.joinRequests == s.joinRequests && IsFresh(r.value.0, 2) && IsFresh(r.value.0, 3)
            && TEAM in r.value.0.conversations && r.value.0.conversations[TEAM] == Conversation(Group, TRIO, 0)
  {
    var joined := Replace(s, TEAM, Conversation(Group, TRIO, 0)).(settings := s.settings + Defaults(NewKeys(TEAM, {APPLICANT})));
    NoticeLeaves(joined, TEAM, FOUNDER, MembersInvited(1), Minted(1, 1), 2);
    NoticeLeaves(joined, TEAM, FOUNDER, MembersInvited(1), Minted(1, 1), 3);
  }

  lemma ApplicantIsInvited() returns (s: State)
    ensures Reachable(s) && IsFresh(s, 2) && IsFresh(s, 3) && HasApplied(s)
    ensures TEAM in s.conversations && s.conversations[TEAM] == Conversation(Group, TRIO, 0)
  {
    var before := ApplicantAsks();
    var op := AddMembers(FOUNDER, TEAM, [APPLICANT], Minted(1, 1));
    FounderWelcomes(before, Minted(1, 1));
    WelcomeLeaves(before);
    ReachableSteps(before, op, 0);
    s := Step(before, op, 0);
  }

  /** The applicant is made the owner while the request still waits. */
  lemma ApplicantBecomesOwner() returns (s: State)
    ensures Reachable(s) && IsFresh(s, 3) && HasApplied(s)
    ensures TEAM in s.conversations && s.conversations[TEAM].kind.Group? && OwnedBy(s.conversations[TEAM].members, APPLICANT)
  {
    var before := ApplicantIsInvited();
    var op := TransferOwnership(FOUNDER, TEAM, APPLICANT, Minted(2, 2));
    assert OwnedBy(TRIO, FOUNDER);
    TransferMovesOwnership(before.conversations[TEAM], FOUNDER, APPLICANT, 0, FOUNDER);
    var transferred := WithOwner(before.conversations[TEAM], FOUNDER, APPLICANT, 0).value;
    NoticeLeaves(Replace(before, TEAM, transferred), TEAM, FOUNDER, OwnershipTransferred, Minted(2, 2), 3);
    ReachableSteps(before, op, 0);
    s := Step(before, op, 0);
  }

  /** A reachable group that has members but no owner: its owner accepted their own old join request. */
  lemma OwnerCanBeLost() returns (s: State)
    ensures Reachable(s) && TEAM in s.conversations && s.conversations[TEAM].kind.Group?
    ensures APPLICANT in s.conversations[TEAM].members && !HasOneOwner(s.conversations[TEAM].members)
  {
    var before := ApplicantBecomesOwner();
    var accept := DecideJoin(APPLICANT, REQUEST, true, Minted(3, 3));
    assert ReacceptsOwner(before, accept);
    ReacceptingSucceeds(before, accept, 0);
    ReachableSteps(before, accept, 0);
    s := Step(before, accept, 0);
  }
}
