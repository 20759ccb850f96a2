/** Who may do what to conversations, groups and accounts, and what then changes: each operation's acceptance, spelled out on
    the state, and its effect on members, settings and events. */
module GroupEffects {
  import opened Domain
  import opened Membership
  import opened ServerState
  import opened ServerInvariants
  import opened Sending
  import opened ServerEffects

  predicate IsGroup(s: State, c: ConversationId) {
    c in s.conversations && s.conversations[c].kind.Group?
  }

  predicate IsMember(s: State, c: ConversationId, u: UserId) {
    c in s.conversations && u in s.conversations[c].members
  }

  predicate IsPlain(s: State, c: ConversationId, u: UserId) {
    IsMember(s, c, u) && s.conversations[c].members[u].role == Member
  }

  predicate IsOwner(s: State, c: ConversationId, u: UserId) {
    IsMember(s, c, u) && s.conversations[c].members[u].role == Owner
  }

  // ----- announcements -----

  /** A notice adds one message to one log and two events at most to the event log; nothing else but the time of the
      conversation changes. */
  lemma NoticeIsExact(s: State, c: ConversationId, actor: UserId, notice: Notice, minted: Minted, now: Time)
    ensures var r := PostNotice(s, c, actor, notice, minted, now);
            && (r.Ok? <==> c in s.conversations)
            && (r.Ok? ==>
                  && r.value == s.(logs := r.value.logs, conversations := s.conversations[c := s.conversations[c].(updatedAt := now)],
                                   events := r.value.events, cursor := r.value.cursor)
                  && (forall d :: d != c ==> LogOf(r.value.logs, d) == LogOf(s.logs, d))
                  && |LogOf(r.value.logs, c)| == |LogOf(s.logs, c)| + 1
                  && LogOf(r.value.logs, c)[|LogOf(s.logs, c)|].content == System(notice)
                  && s.events <= r.value.events)
  {
  }

  /** What an announcement leaves of a state in which the group has already been changed to `conversation`. */
  ghost predicate IsAnnounced(s: State, t: State, c: ConversationId, notice: Notice, recipients: set<UserId>, now: Time) {
    && c in s.conversations
    && t == s.(logs := t.logs, conversations := s.conversations[c := s.conversations[c].(updatedAt := now)],
               events := t.events, cursor := t.cursor)
    && (forall d :: d != c ==> LogOf(t.logs, d) == LogOf(s.logs, d))
    && |LogOf(t.logs, c)| == |LogOf(s.logs, c)| + 1 && LogOf(t.logs, c)[|LogOf(s.logs, c)|].content == System(notice)
    && s.events <= t.events && t.events != [] && t.events[|t.events| - 1].recipients == recipients
    && t.events[|t.events| - 1].event.body == MembershipUpdated(c)
  }

  lemma AnnouncementIsExact(s: State, c: ConversationId, actor: UserId, notice: Notice, minted: Minted, recipients: set<UserId>,
                            now: Time)
    ensures var r := Announce(s, c, actor, notice, minted, recipients, now);
            (r.Ok? <==> c in s.conversations) && (r.Ok? ==> IsAnnounced(s, r.value.0, c, notice, recipients, now))
  {
    NoticeIsExact(s, c, actor, notice, minted, now);
  }

  /** A change to one group: its members become these, other conversations stay, so do all tables but the ones
      named, and in the end these users are told. */
  ghost predicate ChangesGroup(s: State, t: State, c: ConversationId, members: map<UserId, Participant>,
                               told: set<UserId>)
  {
    && c in s.conversations && c in t.conversations && t.conversations.Keys == s.conversations.Keys
    && t.conversations[c].members == members && t.conversations[c].kind == s.conversations[c].kind
    && (forall d :: d in s.conversations && d != c ==> t.conversations[d] == s.conversations[d])
    && (forall d :: d != c ==> LogOf(t.logs, d) == LogOf(s.logs, d))
    && t.accounts == s.accounts && t.friends == s.friends && t.blocks == s.blocks && t.dedup == s.dedup
    && t.receipts == s.receipts && t.scheduled == s.scheduled && t.attachments == s.attachments
    && t.readPositions == s.readPositions && s.events <= t.events
    && t.events != [] && t.events[|t.events| - 1].recipients == told
  }

  // ----- leaving, removing, transferring, disbanding -----

  /** Every member but the owner may leave a group; the entry and the settings of the one who leaves go, nobody else's. */
  lemma LeavingIsExact(s: State, actor: UserId, c: ConversationId, minted: Minted, now: Time)
    ensures var r := Leave(s, actor, c, minted, now);
            && (r.Ok? <==> IsGroup(s, c) && IsMember(s, c, actor) && !IsOwner(s, c, actor))
            && (r.Ok? ==>
                  && ChangesGroup(s, r.value.0, c, s.conversations[c].members - {actor},
                                  s.conversations[c].members.Keys - {actor})
                  && r.value.0.settings == s.settings - {(actor, c)} && r.value.0.muteAll == s.muteAll)
            && (r.Err? ==> r.error == if !IsGroup(s, c) then NotFound else if !IsMember(s, c, actor) then Forbidden else Conflict)
  {
    if IsGroup(s, c) {
      var left := s.conversations[c].(members := s.conversations[c].members - {actor}, updatedAt := now);
      var gone := Replace(s, c, left).(settings := s.settings - {(actor, c)});
      AnnouncementIsExact(gone, c, actor, MemberLeft, minted, left.members.Keys, now);
    }
  }

  /** A member removes those of strictly lower role; the entry and the settings of the one removed go, nobody else's. */
  lemma RemovalIsExact(s: State, actor: UserId, c: ConversationId, target: UserId, minted: Minted, now: Time)
    ensures var r := Remove(s, actor, c, target, minted, now);
            && (r.Ok? <==> && IsGroup(s, c) && IsMember(s, c, actor) && IsMember(s, c, target)
                           && !IsOwner(s, c, target) && !IsPlain(s, c, actor) && (IsOwner(s, c, actor) || IsPlain(s, c, target)))
            && (r.Ok? ==>
                  && ChangesGroup(s, r.value.0, c, s.conversations[c].members - {target},
                                  s.conversations[c].members.Keys - {target})
                  && r.value.0.settings == s.settings - {(target, c)} && r.value.0.muteAll == s.muteAll)
            && (r.Err? ==> r.error == if !IsGroup(s, c) then NotFound else if !IsMember(s, c, actor) then Forbidden
                                      else if !IsMember(s, c, target) then NotFound else Forbidden)
  {
    if IsGroup(s, c) && WithoutMember(s.conversations[c], actor, target, now).Ok? {
      var removed := WithoutMember(s.conversations[c], actor, target, now).value;
      var gone := Replace(s, c, removed).(settings := s.settings - {(target, c)});
      AnnouncementIsExact(gone, c, actor, MemberRemoved, minted, removed.members.Keys, now);
    }
  }

  /** The owner hands the group to a member and becomes a plain one; no other entry and no settings change. */
  lemma TransferIsExact(s: State, actor: UserId, c: ConversationId, target: UserId, minted: Minted, now: Time)
    ensures var r := Transfer(s, actor, c, target, minted, now);
            && (r.Ok? <==> IsGroup(s, c) && IsOwner(s, c, actor) && IsMember(s, c, target))
            && (r.Ok? ==>
                  var members := s.conversations[c].members;
                  var demoted := members[actor := members[actor].(role := Member)];
                  && ChangesGroup(s, r.value.0, c, demoted[target := demoted[target].(role := Owner)], members.Keys)
                  && r.value.0.settings == s.settings && r.value.0.muteAll == s.muteAll)
            && (r.Err? ==> r.error == if !IsGroup(s, c) then NotFound else if !IsOwner(s, c, actor) then Forbidden else NotFound)
  {
    if IsGroup(s, c) && WithOwner(s.conversations[c], actor, target, now).Ok? {
      var transferred := WithOwner(s.conversations[c], actor, target, now).value;
      AnnouncementIsExact(Replace(s, c, transferred), c, actor, OwnershipTransferred, minted, transferred.members.Keys, now);
    }
  }

  /** The owner disbands a group: it is gone with everybody's settings for it, what was said stays, and its last members are
      told. */
  lemma DisbandingIsExact(s: State, actor: UserId, c: ConversationId, now: Time, k: (UserId, ConversationId))
    ensures var r := Disband(s, actor, c, now);
            && (r.Ok? <==> IsGroup(s, c) && IsOwner(s, c, actor))
            && (r.Ok? ==>
                  var t := r.value.0;
                  && t.conversations == s.conversations - {c} && t.logs == s.logs && t.muteAll == s.muteAll - {c}
                  && (k in t.settings <==> k in s.settings && k.1 != c) && (k in t.settings ==> t.settings[k] == s.settings[k])
                  && t.events == s.events + [UserEvent(s.conversations[c].members.Keys, Event(s.cursor + 1, Disbanded(c), now))])
  {
  }

  // ----- editing -----

  /** Administrators mute and unmute all plain members of their group. */
  lemma MutingIsExact(s: State, actor: UserId, c: ConversationId, muted: bool, minted: Minted, now: Time)
    ensures var r := MuteGroup(s, actor, c, muted, minted, now);
            && (r.Ok? <==> IsGroup(s, c) && IsMember(s, c, actor) && !IsPlain(s, c, actor))
            && (r.Ok? ==>
                  && ChangesGroup(s, r.value.0, c, s.conversations[c].members, s.conversations[c].members.Keys)
                  && r.value.0.settings == s.settings
                  && r.value.0.muteAll == if muted then s.muteAll + {c} else s.muteAll - {c})
  {
    if IsGroup(s, c) {
      AnnouncementIsExact(s.(muteAll := Muting(s.muteAll, c, muted)), c, actor, MuteAllChanged(muted), minted,
                          s.conversations[c].members.Keys, now);
    }
  }

  /** Administrators describe their group; no entry changes. */
  lemma DescribingIsExact(s: State, actor: UserId, c: ConversationId, described: bool, minted: Minted, now: Time)
    ensures var r := EditGroup(s, actor, c, described, minted, now);
            && (r.Ok? <==> IsGroup(s, c) && IsMember(s, c, actor) && !IsPlain(s, c, actor))
            && (r.Ok? ==> && ChangesGroup(s, r.value.0, c, s.conversations[c].members, s.conversations[c].members.Keys)
                          && r.value.0.settings == s.settings)
  {
    if IsGroup(s, c) {
      DescriptionIsTold(Replace(s, c, s.conversations[c].(updatedAt := now)), actor, c, described, minted,
                        s.conversations[c].members.Keys, now);
    }
  }

  lemma DescriptionIsTold(s: State, actor: UserId, c: ConversationId, described: bool, minted: Minted, recipients: set<UserId>,
                          now: Time)
    requires c in s.conversations
    ensures var r := Describe(s, actor, c, described, minted, recipients, now);
            && r.Ok?
            && r.value.0 == s.(logs := r.value.0.logs, conversations := r.value.0.conversations, events := r.value.0.events,
                               cursor := r.value.0.cursor)
            && r.value.0.conversations == (if described then s.conversations[c := s.conversations[c].(updatedAt := now)] else s.conversations)
            && (forall d :: d != c ==> LogOf(r.value.0.logs, d) == LogOf(s.logs, d))
            && s.events <= r.value.0.events && r.value.0.events != []
            && r.value.0.events[|r.value.0.events| - 1].recipients == recipients
  {
    NoticeIsExact(s, c, actor, GroupUpdated, minted, now);
  }

  /** Who may change what of a member: an own name or, by administrators, any; a role, by the owner, from and to anything but
      owner; a mute, by administrators of strictly higher role. */
  lemma EditIsAllowedExactly(s: State, actor: UserId, c: ConversationId, target: UserId, renamed: bool, role: Option<Role>,
                             mutedUntil: Option<Option<Time>>, minted: Minted, now: Time)
    ensures var r := EditMember(s, actor, c, target, renamed, role, mutedUntil, minted, now);
            && (r.Ok? <==>
                  && IsGroup(s, c) && IsMember(s, c, actor) && IsMember(s, c, target)
                  && (renamed ==> actor == target || !IsPlain(s, c, actor))
                  && (role.Some? ==> IsOwner(s, c, actor) && role.value != Owner && !IsOwner(s, c, target))
                  && (mutedUntil.Some? ==> && !IsPlain(s, c, actor) && !IsOwner(s, c, target)
                                           && (IsOwner(s, c, actor) || IsPlain(s, c, target))))
            && (r.Err? ==> r.error == if !IsGroup(s, c) then NotFound else Forbidden)
  {
    if IsGroup(s, c) && IsMember(s, c, target) {
      EditIsAnnounced(s, actor, c, target, Edited(s.conversations[c].members[target], role, mutedUntil), minted, now);
    }
  }

  lemma EditIsAnnounced(s: State, actor: UserId, c: ConversationId, target: UserId, edited: Participant, minted: Minted, now: Time)
    requires IsMember(s, c, target)
    ensures var members := s.conversations[c].members;
            var r := ReplaceMember(s, actor, c, s.conversations[c], target, edited, minted, now);
            r.Ok? && ChangesGroup(s, r.value.0, c, members[target := edited], members.Keys)
            && r.value.0.settings == s.settings && r.value.0.muteAll == s.muteAll
  {
    var after := s.conversations[c].(members := s.conversations[c].members[target := edited], updatedAt := now);
    AnnouncementIsExact(Replace(s, c, after), c, actor, MemberSettingsUpdated, minted, s.conversations[c].members.Keys, now);
  }

  /** An edit changes what it names of that one entry. */
  lemma EditingIsExact(s: State, actor: UserId, c: ConversationId, target: UserId, renamed: bool, role: Option<Role>,
                       mutedUntil: Option<Option<Time>>, minted: Minted, now: Time)
    requires EditMember(s, actor, c, target, renamed, role, mutedUntil, minted, now).Ok?
    ensures IsMember(s, c, target)
    ensures var t := EditMember(s, actor, c, target, renamed, role, mutedUntil, minted, now).value.0;
            var members := s.conversations[c].members;
            var edited := Participant(if role.Some? then role.value else members[target].role,
                                      if mutedUntil.Some? then mutedUntil.value else members[target].mutedUntil,
                                      members[target].joinedAt);
            ChangesGroup(s, t, c, members[target := edited], members.Keys) && t.settings == s.settings && t.muteAll == s.muteAll
  {
    EditIsAnnounced(s, actor, c, target, Edited(s.conversations[c].members[target], role, mutedUntil), minted, now);
  }

  // ----- joining -----

  predicate CanInvite(s: State, actor: UserId, u: UserId) {
    u != actor && Befriended(s, actor, u) && u in s.accounts
  }

  lemma {:induction false} InvitedAreChecked(s: State, actor: UserId, invited: seq<UserId>)
    ensures CheckInvited(s, actor, invited).Ok? <==>
              forall u :: u in invited ==> CanInvite(s, actor, u)
  {
    if invited != [] {
      var first, rest := invited[0], invited[1..];
      InvitedAreChecked(s, actor, rest);
      if first != actor {
        FriendsAreBefriended(s, actor, first);
      }
      assert CheckInvited(s, actor, invited).Ok? <==> CanInvite(s, actor, first) && CheckInvited(s, actor, rest).Ok?;
      assert first in invited && forall u :: u in rest ==> u in invited;
      if CanInvite(s, actor, first) && forall u :: u in rest ==> CanInvite(s, actor, u) {
        forall u | u in invited ensures CanInvite(s, actor, u) {
          assert u == first || u in rest;
        }
      }
    }
  }

  lemma AdmittedMembers(conversation: Conversation, invited: seq<UserId>, now: Time)
    ensures var admitted := Admit(conversation, Newcomers(conversation, invited), now);
            admitted.members.Keys == conversation.members.Keys + set u | u in invited
    ensures |Admit(conversation, Newcomers(conversation, invited), now).members|
            == |conversation.members.Keys + set u | u in invited|
  {
    var admitted := Admit(conversation, Newcomers(conversation, invited), now);
    assert |admitted.members| == |admitted.members.Keys|;
  }

  /** A member invites one to a hundred friends of theirs who have accounts, as long as the group stays within five hundred. */
  lemma InvitingIsAllowedExactly(s: State, actor: UserId, c: ConversationId, invited: seq<UserId>, minted: Minted, now: Time)
    ensures InviteMembers(s, actor, c, invited, minted, now).Ok? <==>
              && 1 <= |invited| <= 100 && IsGroup(s, c) && IsMember(s, c, actor)
              && (forall u :: u in invited ==> CanInvite(s, actor, u))
              && |s.conversations[c].members.Keys + set u | u in invited| <= 500
  {
    InvitedAreChecked(s, actor, invited);
    if IsGroup(s, c) {
      var newcomers := Newcomers(s.conversations[c], invited);
      var admitted := Admit(s.conversations[c], newcomers, now);
      AdmittedMembers(s.conversations[c], invited, now);
      WelcomingSucceeds(s, actor, c, admitted, newcomers, minted, now);
    }
  }

  lemma WelcomingSucceeds(s: State, actor: UserId, c: ConversationId, admitted: Conversation, newcomers: set<UserId>,
                          minted: Minted, now: Time)
    ensures Welcome(s, actor, c, admitted, newcomers, minted, now).Ok?
  {
    var joined := Replace(s, c, admitted).(settings := s.settings + Defaults(NewKeys(c, newcomers)));
    NoticeIsExact(joined, c, actor, MembersInvited(|newcomers|), minted, now);
  }

  /** Those who come in with an invitation start with default settings; nobody else's change. */
  lemma NewcomersStartAfresh(s: State, actor: UserId, c: ConversationId, invited: seq<UserId>, minted: Minted, now: Time,
                             u: UserId, d: ConversationId)
    requires InviteMembers(s, actor, c, invited, minted, now).Ok? && c in s.conversations
    ensures var t := InviteMembers(s, actor, c, invited, minted, now).value.0;
            SettingsOf(t, u, d) == if d == c && u in invited && !IsMember(s, c, u) then Settings(0, false) else SettingsOf(s, u, d)
  {
    InvitationIsChecked(s, actor, c, invited, minted, now);
    var newcomers := Newcomers(s.conversations[c], invited);
    WelcomeSettles(s, actor, c, Admit(s.conversations[c], newcomers, now), newcomers, minted, now);
    DefaultsAreSet(s.settings, c, newcomers, u, d);
  }

  lemma DefaultsAreSet(settings: map<(UserId, ConversationId), Settings>, c: ConversationId, newcomers: set<UserId>, u: UserId,
                       d: ConversationId)
    ensures var after := settings + Defaults(NewKeys(c, newcomers));
            if d == c && u in newcomers then (u, d) in after && after[(u, d)] == Settings(0, false)
            else ((u, d) in after <==> (u, d) in settings) && ((u, d) in settings ==> after[(u, d)] == settings[(u, d)])
  {
    assert (u, d) in NewKeys(c, newcomers) <==> d == c && u in newcomers;
  }

  lemma NobodyNewSettles(s: State, actor: UserId, c: ConversationId, admitted: Conversation, minted: Minted, now: Time)
    ensures var r := Welcome(s, actor, c, admitted, {}, minted, now);
            r.Ok? && r.value.0.settings == s.settings + Defaults(NewKeys(c, {}))
  {
  }

  lemma WelcomeSettles(s: State, actor: UserId, c: ConversationId, admitted: Conversation, newcomers: set<UserId>,
                       minted: Minted, now: Time)
    ensures var r := Welcome(s, actor, c, admitted, newcomers, minted, now);
            r.Ok? && r.value.0.settings == s.settings + Defaults(NewKeys(c, newcomers))
  {
    if newcomers == {} {
      NobodyNewSettles(s, actor, c, admitted, minted, now);
    } else {
      var joined := Replace(s, c, admitted).(settings := s.settings + Defaults(NewKeys(c, newcomers)));
      NoticeIsExact(joined, c, actor, MembersInvited(|newcomers|), minted, now);
    }
  }

  /** Anyone who is not a member may ask to join a group, unless a request of theirs is waiting; its administrators are told. */
  lemma AskingIsExact(s: State, actor: UserId, c: ConversationId, request: RequestId, now: Time)
    ensures var r := AskToJoin(s, actor, c, request, now);
            && (r.Ok? <==> && IsGroup(s, c) && !IsMember(s, c, actor)
                           && forall q :: q in s.joinRequests ==> s.joinRequests[q] != JoinRequest(c, actor, Waiting))
            && (r.Ok? ==>
                  var t := r.value.0;
                  && t.joinRequests == s.joinRequests[request := JoinRequest(c, actor, Waiting)]
                  && t.conversations == s.conversations && t.settings == s.settings && t.logs == s.logs
                  && |t.events| == |s.events| + 1
                  && forall u :: u in t.events[|s.events|].recipients <==> IsMember(s, c, u) && !IsPlain(s, c, u))
  {
  }

  /** A join request is decided by an administrator of the conversation while it waits. */
  lemma DecidingIsAllowedExactly(s: State, actor: UserId, request: RequestId, accept: bool, minted: Minted, now: Time)
    ensures ReviewJoin(s, actor, request, accept, minted, now).Ok? <==>
              && request in s.joinRequests && s.joinRequests[request].status == Waiting
              && IsMember(s, s.joinRequests[request].conversation, actor)
              && !IsPlain(s, s.joinRequests[request].conversation, actor)
  {
    if request in s.joinRequests && s.joinRequests[request].conversation in s.conversations && accept {
      var JoinRequest(c, applicant, status) := s.joinRequests[request];
      var reviewed := s.(joinRequests := s.joinRequests[request := JoinRequest(c, applicant, Accepted)]);
      EnteringSucceeds(reviewed, actor, request, c, s.conversations[c], applicant, minted, now);
    }
  }

  lemma EnteringSucceeds(s: State, actor: UserId, request: RequestId, c: ConversationId, conversation: Conversation,
                         applicant: UserId, minted: Minted, now: Time)
    ensures Enter(s, actor, request, c, conversation, applicant, minted, now).Ok?
  {
    var joined := Replace(s, c, conversation.(members := conversation.members[applicant := Participant(Member, None, now)],
                                              updatedAt := now))
                  .(settings := s.settings[(applicant, c) := DEFAULT_SETTINGS]);
    NoticeIsExact(joined, c, actor, MemberJoined, minted, now);
  }

  // ----- opening conversations -----

  /** The founder opens a group with friends, at least one besides themselves; they own it, the others are plain members. */
  lemma FoundingIsExact(s: State, actor: UserId, invited: seq<UserId>, c: ConversationId, now: Time, u: UserId)
    ensures var r := OpenGroup(s, actor, invited, c, now);
            && (r.Ok? <==> (forall v :: v in invited ==> v == actor || Befriended(s, actor, v)) && exists v :: v in invited && v != actor)
            && (r.Ok? ==>
                  var t := r.value.0;
                  && IsGroup(t, c) && t.conversations == s.conversations[c := t.conversations[c]]
                  && (IsMember(t, c, u) <==> u == actor || u in invited)
                  && (IsMember(t, c, u) ==> t.conversations[c].members[u] == Participant(if u == actor then Owner else Member, None, now))
                  && t.logs == s.logs && |t.events| == |s.events| + 1
                  && t.events[|s.events|].recipients == t.conversations[c].members.Keys)
  {
    AloneIsNoGroup(actor, invited, now);
    forall v | v in invited && v != actor ensures AreFriends(s, actor, v) <==> Befriended(s, actor, v) {
      FriendsAreBefriended(s, actor, v);
    }
  }

  ghost predicate HaveDirect(s: State, a: UserId, b: UserId) {
    exists d :: d in s.conversations && IsDirectBetween(s.conversations[d], a, b)
  }

  lemma FirstDirectIsOpened(s: State, actor: UserId, peer: UserId, c: ConversationId, now: Time)
    requires actor != peer && AreFriends(s, actor, peer) && !HaveDirect(s, actor, peer)
    ensures var r := OpenDirect(s, actor, peer, c, now);
            && r.Ok? && c in r.value.0.conversations && r.value.0.logs == s.logs
            && r.value.0.conversations == s.conversations[c := r.value.0.conversations[c]]
            && r.value.0.conversations[c].kind.Direct? && r.value.0.conversations[c].members.Keys == {actor, peer}
  {
    var direct := DirectOf(actor, peer, now).value;
    assert direct.members.Keys == {actor, peer};
  }

  /** Friends open a direct conversation, once: a second attempt finds the first. */
  lemma OpeningDirectIsExact(s: State, actor: UserId, peer: UserId, c: ConversationId, now: Time)
    requires actor != peer
    ensures var r := OpenDirect(s, actor, peer, c, now);
            && (r.Ok? <==> Befriended(s, actor, peer))
            && (r.Ok? ==> HaveDirect(r.value.0, actor, peer))
            && (r.Ok? && HaveDirect(s, actor, peer) ==> r.value.0 == s)
            && (r.Ok? && !HaveDirect(s, actor, peer) ==>
                  var t := r.value.0;
                  && c in t.conversations && t.conversations == s.conversations[c := t.conversations[c]] && t.logs == s.logs
                  && t.conversations[c].kind.Direct? && t.conversations[c].members.Keys == {actor, peer})
  {
    FriendsAreBefriended(s, actor, peer);
    if AreFriends(s, actor, peer) && !HaveDirect(s, actor, peer) {
      FirstDirectIsOpened(s, actor, peer, c, now);
      var t := OpenDirect(s, actor, peer, c, now).value.0;
      TwoMembers(t.conversations[c], actor, peer);
    }
  }

  lemma TwoMembers(conversation: Conversation, a: UserId, b: UserId)
    requires conversation.members.Keys == {a, b} && a != b && conversation.kind.Direct?
    ensures IsDirectBetween(conversation, a, b)
  {
    assert a in conversation.members.Keys && b in conversation.members.Keys;
    assert |conversation.members| == |conversation.members.Keys|;
  }

  /** Accepting a friend makes the two friends who take each other's files, and opens their conversation. */
  lemma BefriendingIsExact(s: State, sender: UserId, recipient: UserId, c: ConversationId, now: Time)
    requires sender != recipient
    ensures BecomeFriends(s, sender, recipient, c, now).Ok?
    ensures var t := BecomeFriends(s, sender, recipient, c, now).value.0;
            && Befriended(t, sender, recipient) && t.friends == s.friends + {(sender, recipient)} && t.blocks == s.blocks
            && (sender, recipient) !in t.refusesFiles && (recipient, sender) !in t.refusesFiles
            && c in t.conversations && t.conversations[c].kind.Direct? && t.conversations[c].members.Keys == {sender, recipient}
            && |t.events| == |s.events| + 1 && t.events[|s.events|].recipients == {sender, recipient}
  {
  }

  // ----- accounts -----

  lemma RegisteringIsExact(s: State, user: UserId, nickname: string)
    ensures var r := RegisterAccount(s, user, nickname);
            && (r.Ok? <==> user !in s.accounts) && (r.Err? ==> r.error == AccountConflict)
            && (r.Ok? ==> r.value.0 == s.(accounts := s.accounts[user := Account(nickname, false)]))
  {
  }


  /** An account is deleted by whoever knows its password, once. */
  lemma DeletingIsAllowedExactly(s: State, actor: UserId, passwordMatches: bool, now: Time)
    ensures var r := Delete(s, actor, passwordMatches, now);
            && (r.Ok? <==> actor in s.accounts && !s.accounts[actor].deleted && passwordMatches)
            && (r.Err? ==> r.error == if actor in s.accounts && !s.accounts[actor].deleted then InvalidCredentials else NotFound)
            && (r.Ok? ==> && r.value.0.accounts == s.accounts[actor := Account("已注销用户", true)]
                          && r.value.0.attachments == s.attachments && r.value.0.expirations == s.expirations
                          && Delete(r.value.0, actor, true, now) == Err(NotFound))
  {
  }

  /** Friends and fellow members learn of a deletion, and nobody else. */
  lemma DeletionIsToldToContacts(s: State, actor: UserId, now: Time, u: UserId)
    requires Delete(s, actor, true, now).Ok?
    ensures var t := Delete(s, actor, true, now).value.0;
            && |t.events| == |s.events| + 1
            && (u in t.events[|s.events|].recipients <==>
                  u != actor && (Befriended(s, actor, u) || exists c :: IsMember(s, c, actor) && IsMember(s, c, u)))
  {
    if u != actor {
      ContactsAreExact(s, actor, u);
    }
  }

  lemma ContactsAreExact(s: State, actor: UserId, u: UserId)
    requires u != actor
    ensures u in Contacts(s, actor) <==> Befriended(s, actor, u) || exists c :: IsMember(s, c, actor) && IsMember(s, c, u)
  {
    if Befriended(s, actor, u) {
      var pair := if (actor, u) in s.friends then (actor, u) else (u, actor);
      assert pair in s.friends && Involves(pair, actor);
    }
    if c :| IsMember(s, c, actor) && IsMember(s, c, u) {
      assert s.conversations[c].CanRead(actor) && u in s.conversations[c].members;
    }
    if u in Contacts(s, actor) && !Befriended(s, actor, u) {
      var c :| c in s.conversations && s.conversations[c].CanRead(actor) && u in s.conversations[c].members;
      assert IsMember(s, c, actor) && IsMember(s, c, u);
    }
  }
}
