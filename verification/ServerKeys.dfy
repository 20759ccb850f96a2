/** What each operation of the server store puts into or takes out of the two tables of client ids: the schedule and the
    dedup table. */
module ServerKeys {
  import opened Domain
  import opened Membership
  import opened ServerState
  import opened ServerInvariants
  import opened ServerRuns
  import opened ServerTheorems

  // ----- the schedule -----

  lemma {:induction false} AppendAllKeepsScheduled(s: State, actor: UserId, c: ConversationId, contents: seq<Content>,
                                                   minteds: seq<Minted>, last: nat, recipients: set<UserId>, now: Time)
    requires |minteds| >= |contents|
    ensures var r := AppendAll(s, actor, c, contents, minteds, last, recipients, now); r.Ok? ==> r.value.0.scheduled == s.scheduled
    decreases |contents|
  {
    if contents != [] {
      var first := AppendForwarded(s, actor, c, contents[0], minteds[0], last + 1, recipients, now);
      if first.Ok? {
        AppendAllKeepsScheduled(first.value.0, actor, c, contents[1..], minteds[1..], last + 1, recipients, now);
      }
    }
  }

  lemma ForwardKeepsScheduled(s: State, actor: UserId, ids: seq<MessageId>, c: ConversationId, merged: bool,
                              minteds: seq<Minted>, now: Time)
    requires |minteds| == |ids|
    ensures var r := Forwards(s, actor, ids, c, merged, minteds, now); r.Ok? ==> r.value.0.scheduled == s.scheduled
  {
    if Forwards(s, actor, ids, c, merged, minteds, now).Ok? {
      var sources := Sources(s, actor, ids, merged);
      AppendAllKeepsScheduled(s, actor, c, ForwardContents(sources.value, merged), minteds, LastSequence(LogOf(s.logs, c)),
                              s.conversations[c].members.Keys, now);
    }
  }

  /** Which entries an operation can take out of, or put into, the schedule. */
  lemma MessageOpSchedule(s: State, op: Op, now: Time, e: Scheduled)
    requires HandlesMessages(op) && MintsEnough(op) && ApplyToMessages(s, op, now).Ok?
    ensures var t := ApplyToMessages(s, op, now).value.0;
            && (e in s.scheduled && e !in t.scheduled ==>
                  op == CancelScheduled(e.actor, e.id) || op == DropScheduled(e.id))
            && (e !in s.scheduled && e in t.scheduled ==> op == Schedule(e))
  {
    match op {
      case CancelScheduled(actor, request) =>
        RetainIsSublist(s.scheduled, (x: Scheduled) => !(x.id == request && x.actor == actor));
      case DropScheduled(request) =>
        RetainIsSublist(s.scheduled, (x: Scheduled) => x.id != request);
      case Forward(actor, sources, c, merged, minteds) =>
        ForwardKeepsScheduled(s, actor, sources, c, merged, minteds, now);
      case _ =>
    }
  }

  ghost predicate FilesNothing(s: State, r: Outcome) {
    r.Ok? ==> r.value.0.scheduled == s.scheduled && r.value.0.dedup == s.dedup
  }

  lemma NoticeFilesNothing(s: State, c: ConversationId, actor: UserId, notice: Notice, minted: Minted, now: Time)
    ensures var r := PostNotice(s, c, actor, notice, minted, now);
            r.Ok? ==> r.value.scheduled == s.scheduled && r.value.dedup == s.dedup
  {
  }

  lemma AnnouncementFilesNothing(s: State, c: ConversationId, actor: UserId, notice: Notice, minted: Minted,
                                 recipients: set<UserId>, now: Time)
    ensures FilesNothing(s, Announce(s, c, actor, notice, minted, recipients, now))
  {
    NoticeFilesNothing(s, c, actor, notice, minted, now);
  }

  lemma NobodyNewFilesNothing(s: State, actor: UserId, c: ConversationId, admitted: Conversation, minted: Minted, now: Time)
    ensures FilesNothing(s, Welcome(s, actor, c, admitted, {}, minted, now))
  {
  }

  lemma NewcomersFileNothing(s: State, actor: UserId, c: ConversationId, admitted: Conversation, newcomers: set<UserId>,
                             minted: Minted, now: Time)
    requires newcomers != {}
    ensures FilesNothing(s, Welcome(s, actor, c, admitted, newcomers, minted, now))
  {
    var joined := Replace(s, c, admitted).(settings := s.settings + Defaults(NewKeys(c, newcomers)));
    NoticeFilesNothing(joined, c, actor, MembersInvited(|newcomers|), minted, now);
  }

  lemma WelcomeFilesNothing(s: State, actor: UserId, c: ConversationId, admitted: Conversation, newcomers: set<UserId>,
                            minted: Minted, now: Time)
    ensures FilesNothing(s, Welcome(s, actor, c, admitted, newcomers, minted, now))
  {
    if newcomers == {} {
      NobodyNewFilesNothing(s, actor, c, admitted, minted, now);
    } else {
      NewcomersFileNothing(s, actor, c, admitted, newcomers, minted, now);
    }
  }

  lemma InviteFilesNothing(s: State, actor: UserId, c: ConversationId, invited: seq<UserId>, minted: Minted, now: Time)
    ensures FilesNothing(s, InviteMembers(s, actor, c, invited, minted, now))
  {
    var group := FindGroup(s, c);
    if 1 <= |invited| <= 100 && group.Ok? && group.value.CanRead(actor) && CheckInvited(s, actor, invited).Ok? {
      var newcomers := Newcomers(group.value, invited);
      WelcomeFilesNothing(s, actor, c, Admit(group.value, newcomers, now), newcomers, minted, now);
    }
  }

  lemma ReviewFilesNothing(s: State, actor: UserId, request: RequestId, accept: bool, minted: Minted, now: Time)
    ensures FilesNothing(s, ReviewJoin(s, actor, request, accept, minted, now))
  {
  }

  lemma EditFilesNothing(s: State, actor: UserId, c: ConversationId, described: bool, minted: Minted, now: Time)
    ensures FilesNothing(s, EditGroup(s, actor, c, described, minted, now))
  {
  }

  lemma LeavingFilesNothing(s: State, actor: UserId, c: ConversationId, minted: Minted, now: Time)
    ensures FilesNothing(s, Leave(s, actor, c, minted, now))
  {
    if Leave(s, actor, c, minted, now).Ok? {
      var left := s.conversations[c].(members := s.conversations[c].members - {actor}, updatedAt := now);
      var gone := Replace(s, c, left).(settings := s.settings - {(actor, c)});
      AnnouncementFilesNothing(gone, c, actor, MemberLeft, minted, left.members.Keys, now);
    }
  }

  lemma RemovalFilesNothing(s: State, actor: UserId, c: ConversationId, target: UserId, minted: Minted, now: Time)
    ensures FilesNothing(s, Remove(s, actor, c, target, minted, now))
  {
    if Remove(s, actor, c, target, minted, now).Ok? {
      var removed := WithoutMember(s.conversations[c], actor, target, now).value;
      var gone := Replace(s, c, removed).(settings := s.settings - {(target, c)});
      AnnouncementFilesNothing(gone, c, actor, MemberRemoved, minted, removed.members.Keys, now);
    }
  }

  lemma TransferFilesNothing(s: State, actor: UserId, c: ConversationId, target: UserId, minted: Minted, now: Time)
    ensures FilesNothing(s, Transfer(s, actor, c, target, minted, now))
  {
    if Transfer(s, actor, c, target, minted, now).Ok? {
      var transferred := WithOwner(s.conversations[c], actor, target, now).value;
      AnnouncementFilesNothing(Replace(s, c, transferred), c, actor, OwnershipTransferred, minted, transferred.members.Keys, now);
    }
  }

  lemma MemberEditFilesNothing(s: State, actor: UserId, c: ConversationId, target: UserId, renamed: bool, role: Option<Role>,
                               mutedUntil: Option<Option<Time>>, minted: Minted, now: Time)
    ensures FilesNothing(s, EditMember(s, actor, c, target, renamed, role, mutedUntil, minted, now))
  {
  }

  lemma MutingFilesNothing(s: State, actor: UserId, c: ConversationId, muted: bool, minted: Minted, now: Time)
    ensures FilesNothing(s, MuteGroup(s, actor, c, muted, minted, now))
  {
  }

  lemma MemberOpFilesNothing(s: State, op: Op, now: Time)
    requires op.LeaveGroup? || op.UpdateMember? || op.RemoveMember? || op.TransferOwnership? || op.SetMuteAll?
    ensures FilesNothing(s, ApplyToGroup(s, op, now))
  {
    match op {
      case LeaveGroup(actor, c, minted) => LeavingFilesNothing(s, actor, c, minted, now);
      case UpdateMember(actor, c, target, renamed, role, mutedUntil, minted) =>
        MemberEditFilesNothing(s, actor, c, target, renamed, role, mutedUntil, minted, now);
      case RemoveMember(actor, c, target, minted) => RemovalFilesNothing(s, actor, c, target, minted, now);
      case TransferOwnership(actor, c, target, minted) => TransferFilesNothing(s, actor, c, target, minted, now);
      case SetMuteAll(actor, c, muted, minted) => MutingFilesNothing(s, actor, c, muted, minted, now);
    }
  }

  lemma DisbandingFilesNothing(s: State, actor: UserId, c: ConversationId, now: Time)
    ensures FilesNothing(s, Disband(s, actor, c, now))
  {
  }

  lemma AskingFilesNothing(s: State, actor: UserId, c: ConversationId, request: RequestId, now: Time)
    ensures FilesNothing(s, AskToJoin(s, actor, c, request, now))
  {
  }

  lemma GroupOpFilesNothing(s: State, op: Op, now: Time)
    requires EditsGroups(op)
    ensures FilesNothing(s, ApplyToGroup(s, op, now))
  {
    match op {
      case AddMembers(actor, c, invited, minted) => InviteFilesNothing(s, actor, c, invited, minted, now);
      case UpdateGroup(actor, c, described, minted) => EditFilesNothing(s, actor, c, described, minted, now);
      case DisbandGroup(actor, c) => DisbandingFilesNothing(s, actor, c, now);
      case RequestJoin(actor, c, request) => AskingFilesNothing(s, actor, c, request, now);
      case DecideJoin(actor, request, accept, minted) => ReviewFilesNothing(s, actor, request, accept, minted, now);
      case _ => MemberOpFilesNothing(s, op, now);
    }
  }

  lemma DeleteSchedule(s: State, actor: UserId, passwordMatches: bool, now: Time, e: Scheduled)
    requires Delete(s, actor, passwordMatches, now).Ok?
    ensures e in Delete(s, actor, passwordMatches, now).value.0.scheduled <==> e in s.scheduled && e.actor != actor
  {
    RetainIsSublist(s.scheduled, (x: Scheduled) => x.actor != actor);
  }

  lemma BefriendingFilesNothing(s: State, sender: UserId, recipient: UserId, c: ConversationId, now: Time)
    ensures FilesNothing(s, BecomeFriends(s, sender, recipient, c, now))
  {
  }

  lemma DirectFilesNothing(s: State, actor: UserId, peer: UserId, c: ConversationId, now: Time)
    ensures FilesNothing(s, OpenDirect(s, actor, peer, c, now))
  {
  }

  lemma GroupFilesNothing(s: State, actor: UserId, invited: seq<UserId>, c: ConversationId, now: Time)
    ensures FilesNothing(s, OpenGroup(s, actor, invited, c, now))
  {
  }

  lemma AttachmentOpFilesNothing(s: State, op: Op, now: Time)
    requires op.AuthorizeAttachment? || op.CompleteAttachment? || op.QuarantineAttachment? || op.CleanupAttachments?
    ensures FilesNothing(s, ApplyToAccounts(s, op, now))
  {
  }

  lemma AccountOpFilesNothing(s: State, op: Op, now: Time)
    requires !EditsGroups(op) && !HandlesMessages(op) && !op.DeleteAccount?
    ensures FilesNothing(s, ApplyToAccounts(s, op, now))
  {
    match op {
      case AcceptFriend(sender, recipient, c) => BefriendingFilesNothing(s, sender, recipient, c, now);
      case CreateDirect(actor, peer, c) => DirectFilesNothing(s, actor, peer, c, now);
      case CreateGroup(actor, invited, c) => GroupFilesNothing(s, actor, invited, c, now);
      case Register(_, _) =>
      case ChangeRelations(_, _, _, _) =>
      case _ => AttachmentOpFilesNothing(s, op, now);
    }
  }

  lemma AccountOpSchedule(s: State, op: Op, now: Time, e: Scheduled)
    requires !EditsGroups(op) && !HandlesMessages(op) && ApplyToAccounts(s, op, now).Ok?
    ensures var t := ApplyToAccounts(s, op, now).value.0;
            && (e in s.scheduled && e !in t.scheduled ==> op.DeleteAccount? && op.actor == e.actor)
            && (e in t.scheduled ==> e in s.scheduled)
  {
    match op {
      case DeleteAccount(actor, passwordMatches) => DeleteSchedule(s, actor, passwordMatches, now, e);
      case _ => AccountOpFilesNothing(s, op, now);
    }
  }

  lemma StepSchedule(s: State, op: Op, now: Time, e: Scheduled)
    requires MintsEnough(op)
    ensures var t := Step(s, op, now);
            && (e in s.scheduled && e !in t.scheduled ==>
                  op == CancelScheduled(e.actor, e.id) || op == DropScheduled(e.id)
                  || (op.DeleteAccount? && op.actor == e.actor))
            && (e !in s.scheduled && e in t.scheduled ==> op == Schedule(e))
  {
    if Apply(s, op, now).Ok? {
      if EditsGroups(op) {
        GroupOpFilesNothing(s, op, now);
      } else if HandlesMessages(op) {
        MessageOpSchedule(s, op, now, e);
      } else {
        AccountOpSchedule(s, op, now, e);
      }
    }
  }

  // ----- the dedup table -----

  /** The server has accepted a message of this user under this key. */
  ghost predicate IsDelivered(s: State, user: UserId, key: MessageId) {
    (user, key) in s.dedup
  }

  /** Whatever this operation files under the key, it files in this conversation with this content. */
  predicate FilesOnly(op: Op, user: UserId, key: MessageId, c: ConversationId, content: Content) {
    match op
    case Send(actor, d, sent, _) => actor == user && sent.clientId == key ==> d == c && sent.content == content
    case Forward(actor, _, _, _, minteds) => actor == user ==> forall m :: m in minteds ==> m.clientId != key
    case _ => true
  }

  /** The filed message of this key: it reads as it was sent, or as recalled. */
  ghost predicate IsCopyOf(s: State, user: UserId, key: MessageId, c: ConversationId, i: nat, content: Content) {
    IsCopy(s, user, key, c, i) && (s.logs[c][i].content == content || s.logs[c][i].content == System(MessageRecalled))
  }

  ghost predicate IsFiledAs(s: State, user: UserId, key: MessageId, c: ConversationId, content: Content) {
    IsDelivered(s, user, key) ==> exists i: nat :: IsCopyOf(s, user, key, c, i, content)
  }

  lemma {:induction false} AppendAllFiles(s: State, actor: UserId, c: ConversationId, contents: seq<Content>,
                                          minteds: seq<Minted>, last: nat, recipients: set<UserId>, now: Time,
                                          user: UserId, key: MessageId)
    requires |minteds| >= |contents| && (user, key) !in s.dedup
    requires actor == user ==> forall m :: m in minteds ==> m.clientId != key
    ensures var r := AppendAll(s, actor, c, contents, minteds, last, recipients, now); r.Ok? ==> (user, key) !in r.value.0.dedup
    decreases |contents|
  {
    if contents != [] {
      var first := AppendForwarded(s, actor, c, contents[0], minteds[0], last + 1, recipients, now);
      if first.Ok? {
        assert minteds[0] in minteds;
        AppendAllFiles(first.value.0, actor, c, contents[1..], minteds[1..], last + 1, recipients, now, user, key);
      }
    }
  }

  lemma ForwardFiles(s: State, actor: UserId, ids: seq<MessageId>, c: ConversationId, merged: bool, minteds: seq<Minted>,
                     now: Time, user: UserId, key: MessageId)
    requires |minteds| == |ids| && (user, key) !in s.dedup
    requires actor == user ==> forall m :: m in minteds ==> m.clientId != key
    ensures var r := Forwards(s, actor, ids, c, merged, minteds, now); r.Ok? ==> (user, key) !in r.value.0.dedup
  {
    if Forwards(s, actor, ids, c, merged, minteds, now).Ok? {
      var sources := Sources(s, actor, ids, merged);
      AppendAllFiles(s, actor, c, ForwardContents(sources.value, merged), minteds, LastSequence(LogOf(s.logs, c)),
                     s.conversations[c].members.Keys, now, user, key);
    }
  }

  lemma MessageOpFiles(s: State, op: Op, now: Time, user: UserId, key: MessageId)
    requires HandlesMessages(op) && MintsEnough(op) && (user, key) !in s.dedup && !op.Send?
    requires op.Forward? && op.actor == user ==> forall m :: m in op.minteds ==> m.clientId != key
    ensures var r := ApplyToMessages(s, op, now); r.Ok? ==> (user, key) !in r.value.0.dedup
  {
    match op {
      case Forward(actor, sources, c, merged, minteds) => ForwardFiles(s, actor, sources, c, merged, minteds, now, user, key);
      case _ =>
    }
  }

  lemma AccountOpFiles(s: State, op: Op, now: Time)
    requires !EditsGroups(op) && !HandlesMessages(op)
    ensures var r := ApplyToAccounts(s, op, now); r.Ok? ==> r.value.0.dedup == s.dedup
  {
    match op {
      case DeleteAccount(_, _) =>
      case _ => AccountOpFilesNothing(s, op, now);
    }
  }

  /** Nothing but a send files a key, or a forward a key it was given. */
  lemma OtherOpsFile(s: State, op: Op, now: Time, user: UserId, key: MessageId)
    requires MintsEnough(op) && (user, key) !in s.dedup && !op.Send?
    requires op.Forward? && op.actor == user ==> forall m :: m in op.minteds ==> m.clientId != key
    ensures (user, key) !in Step(s, op, now).dedup
  {
    if EditsGroups(op) {
      GroupOpFilesNothing(s, op, now);
    } else if HandlesMessages(op) {
      MessageOpFiles(s, op, now, user, key);
    } else {
      AccountOpFiles(s, op, now);
    }
  }

  lemma SendFiles(s: State, actor: UserId, c: ConversationId, request: SendRequest, id: MessageId, now: Time)
    requires Inv(s) && IsFresh(s, id) && (actor, request.clientId) !in s.dedup && SendMessage(s, actor, c, request, id, now).Ok?
    ensures var t := SendMessage(s, actor, c, request, id, now).value.0;
            && IsCopyOf(t, actor, request.clientId, c, |LogOf(s.logs, c)|, request.content)
            && forall k :: k in t.dedup ==> k in s.dedup || k == (actor, request.clientId)
  {
    FirstSendAppendsOnce(s, actor, c, request, id, now);
    SentIsRegistered(s, actor, c, request, id, now);
  }

  /** This operation can file nothing under the key. */
  predicate FilesNoSuchKey(op: Op, user: UserId, key: MessageId) {
    match op
    case Send(actor, _, sent, _) => actor == user ==> sent.clientId != key
    case Forward(actor, _, _, _, minteds) => actor == user ==> forall m :: m in minteds ==> m.clientId != key
    case _ => true
  }

  lemma StepFilesNothing(s: State, op: Op, now: Time, user: UserId, key: MessageId)
    requires Inv(s) && MintsEnough(op) && FreshIds(s, op) && FilesNoSuchKey(op, user, key) && !IsDelivered(s, user, key)
    ensures !IsDelivered(Step(s, op, now), user, key)
  {
    if !op.Send? {
      OtherOpsFile(s, op, now, user, key);
    } else if SendMessage(s, op.actor, op.conversation, op.sent, op.id, now).Ok? {
      if (op.actor, op.sent.clientId) in s.dedup {
        KnownKeyIsAnswered(s, op.actor, op.conversation, op.sent, op.id, now);
      } else {
        SendFiles(s, op.actor, op.conversation, op.sent, op.id, now);
      }
    }
  }

  lemma CopyStays(s: State, t: State, deleted: set<UserId>, user: UserId, key: MessageId, c: ConversationId, i: nat, content: Content)
    requires IsCopyOf(s, user, key, c, i, content) && Evolves(s, t, deleted)
    ensures IsCopyOf(t, user, key, c, i, content)
  {
    assert SameStamp(s.logs[c][i], t.logs[c][i]);
  }

  /** A key that is only ever used for one content in one conversation is filed there with that content. */
  lemma StepFiles(s: State, op: Op, now: Time, user: UserId, key: MessageId, c: ConversationId, content: Content)
    requires Inv(s) && MintsEnough(op) && FreshIds(s, op)
    requires FilesOnly(op, user, key, c, content) && IsFiledAs(s, user, key, c, content)
    ensures IsFiledAs(Step(s, op, now), user, key, c, content)
  {
    if (user, key) in s.dedup {
      var i: nat :| IsCopyOf(s, user, key, c, i, content);
      StepKeeps(s, op, now);
      CopyStays(s, Step(s, op, now), Deletes(op), user, key, c, i, content);
    } else if !op.Send? {
      OtherOpsFile(s, op, now, user, key);
    } else if SendMessage(s, op.actor, op.conversation, op.sent, op.id, now).Ok? {
      SendingFiles(s, op.actor, op.conversation, op.sent, op.id, now, user, key, c, content);
    }
  }

  lemma SendingFiles(s: State, actor: UserId, d: ConversationId, request: SendRequest, id: MessageId, now: Time,
                     user: UserId, key: MessageId, c: ConversationId, content: Content)
    requires Inv(s) && IsFresh(s, id) && (user, key) !in s.dedup && SendMessage(s, actor, d, request, id, now).Ok?
    requires actor == user && request.clientId == key ==> d == c && request.content == content
    ensures IsFiledAs(SendMessage(s, actor, d, request, id, now).value.0, user, key, c, content)
  {
    if (actor, request.clientId) in s.dedup {
      KnownKeyIsAnswered(s, actor, d, request, id, now);
    } else {
      SendFiles(s, actor, d, request, id, now);
    }
  }
}
