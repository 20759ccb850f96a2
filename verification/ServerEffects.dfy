/** What single operations do, said without their bodies: what is added, who may do it, and what stays. */
module ServerEffects {
  import opened Domain
  import opened Membership
  import opened ServerState
  import opened ServerInvariants
  import opened ServerRuns

  // ----- forwards -----

  /** The messages a forward appends, in order behind the log. */
  ghost predicate AreForwarded(messages: seq<Message>, contents: seq<Content>, minteds: seq<Minted>, actor: UserId,
                               c: ConversationId, last: nat)
    requires |minteds| >= |contents|
  {
    && |messages| == |contents|
    && forall k :: 0 <= k < |messages| ==>
         && messages[k].content == contents[k] && messages[k].sender == actor && messages[k].conversation == c
         && messages[k].id == minteds[k].id && messages[k].clientId == minteds[k].clientId
         && messages[k].sequence == Some(last + 1 + k) && messages[k].status == Sent
  }

  lemma {:induction false} AppendAllAppends(s: State, actor: UserId, c: ConversationId, contents: seq<Content>,
                                            minteds: seq<Minted>, last: nat, recipients: set<UserId>, now: Time)
    requires |minteds| >= |contents|
    ensures var r := AppendAll(s, actor, c, contents, minteds, last, recipients, now);
            r.Ok? ==>
              && AreForwarded(r.value.1, contents, minteds, actor, c, last)
              && LogOf(r.value.0.logs, c) == LogOf(s.logs, c) + r.value.1
              && forall d :: d != c ==> LogOf(r.value.0.logs, d) == LogOf(s.logs, d)
    decreases |contents|
  {
    if contents != [] {
      var first := AppendForwarded(s, actor, c, contents[0], minteds[0], last + 1, recipients, now);
      if first.Ok? {
        AppendAllAppends(first.value.0, actor, c, contents[1..], minteds[1..], last + 1, recipients, now);
        var rest := AppendAll(first.value.0, actor, c, contents[1..], minteds[1..], last + 1, recipients, now);
        if rest.Ok? {
          AppendsOne(s, actor, c, contents[0], minteds[0], last + 1, recipients, now);
          FirstThenRest(s.logs, first.value.0.logs, c, first.value.1, contents, minteds, actor, last, rest);
        }
      }
    } else {
      assert LogOf(s.logs, c) + [] == LogOf(s.logs, c);
    }
  }

  lemma AppendsOne(s: State, actor: UserId, c: ConversationId, content: Content, minted: Minted, sequence: nat,
                   recipients: set<UserId>, now: Time)
    ensures var r := AppendForwarded(s, actor, c, content, minted, sequence, recipients, now);
            r.Ok? ==>
              && (sequence > 0 ==> AreForwarded([r.value.1], [content], [minted], actor, c, sequence - 1))
              && LogOf(r.value.0.logs, c) == LogOf(s.logs, c) + [r.value.1]
              && forall d :: d != c ==> LogOf(r.value.0.logs, d) == LogOf(s.logs, d)
  {
  }

  lemma FirstThenRest(before: map<ConversationId, seq<Message>>, after: map<ConversationId, seq<Message>>, c: ConversationId,
                      first: Message, contents: seq<Content>, minteds: seq<Minted>, actor: UserId, last: nat,
                      rest: Result<(State, seq<Message>)>)
    requires |minteds| >= |contents| > 0 && rest.Ok?
    requires AreForwarded([first], [contents[0]], [minteds[0]], actor, c, last)
    requires AreForwarded(rest.value.1, contents[1..], minteds[1..], actor, c, last + 1)
    requires LogOf(after, c) == LogOf(before, c) + [first]
    requires LogOf(rest.value.0.logs, c) == LogOf(after, c) + rest.value.1
    ensures AreForwarded([first] + rest.value.1, contents, minteds, actor, c, last)
    ensures LogOf(rest.value.0.logs, c) == LogOf(before, c) + ([first] + rest.value.1)
  {
  }

  lemma {:induction false} SourcesAreOriginals(s: State, actor: UserId, ids: seq<MessageId>, merged: bool, k: nat)
    requires Sources(s, actor, ids, merged).Ok? && k < |ids|
    ensures FindMessage(s.logs, ids[k]).Ok?
    ensures var original := FindMessage(s.logs, ids[k]).value;
            var source := Sources(s, actor, ids, merged).value[k];
            && source.content == original.content && source.sender == original.sender && !original.content.System?
            && original.conversation in s.conversations && s.conversations[original.conversation].CanRead(actor)
  {
    if k > 0 {
      SourcesAreOriginals(s, actor, ids[1..], merged, k - 1);
    }
  }

  /** The sources are checked in order: the error is that of the first id that fails, every id before it having succeeded,
      and without a failing id each source stands at its own place. */
  lemma {:induction false} SourcesFailFirst(s: State, actor: UserId, ids: seq<MessageId>, merged: bool) returns (k: nat)
    ensures var r := Sources(s, actor, ids, merged);
            && k <= |ids| && (r.Err? <==> k < |ids|)
            && (forall j :: 0 <= j < k ==> Source(s, actor, ids[j], merged).Ok?)
            && (k < |ids| ==> Source(s, actor, ids[k], merged) == Err(r.error))
            && (k == |ids| ==> forall j :: 0 <= j < k ==> r.value[j] == Source(s, actor, ids[j], merged).value)
  {
    k := 0;
    if ids != [] && Source(s, actor, ids[0], merged).Ok? {
      var rest := SourcesFailFirst(s, actor, ids[1..], merged);
      k := rest + 1;
      forall j | 0 <= j < k ensures Source(s, actor, ids[j], merged).Ok? {
        assert j > 0 ==> ids[j] == ids[1..][j - 1];
      }
    }
  }

  /** A successful forward has passed every check and appends what its sources make. */
  lemma ForwardIsChecked(s: State, actor: UserId, ids: seq<MessageId>, c: ConversationId, merged: bool, minteds: seq<Minted>,
                         now: Time)
    requires |minteds| == |ids| && Forwards(s, actor, ids, c, merged, minteds, now).Ok?
    ensures c in s.conversations && s.conversations[c].CanSend(actor, now) && Sources(s, actor, ids, merged).Ok?
    ensures |ids| >= if merged then 2 else 1
    ensures var contents := ForwardContents(Sources(s, actor, ids, merged).value, merged);
            var r := AppendAll(s, actor, c, contents, minteds, LastSequence(LogOf(s.logs, c)), s.conversations[c].members.Keys, now);
            var (t, reply) := Forwards(s, actor, ids, c, merged, minteds, now).value;
            r.Ok? && t.logs == r.value.0.logs && reply == Messages(r.value.1)
  {
  }

  /** A forward adds its messages in order at the end of one log, numbered on from there, and touches no other log. */
  lemma ForwardAppendsInOrder(s: State, actor: UserId, ids: seq<MessageId>, c: ConversationId, merged: bool,
                              minteds: seq<Minted>, now: Time)
    requires Inv(s) && |minteds| == |ids| && Forwards(s, actor, ids, c, merged, minteds, now).Ok?
    ensures c in s.conversations && s.conversations[c].CanSend(actor, now) && Sources(s, actor, ids, merged).Ok?
    ensures var (t, reply) := Forwards(s, actor, ids, c, merged, minteds, now).value;
            var contents := ForwardContents(Sources(s, actor, ids, merged).value, merged);
            && |contents| <= |minteds| && reply.Messages?
            && AreForwarded(reply.messages, contents, minteds, actor, c, |LogOf(s.logs, c)|)
            && LogOf(t.logs, c) == LogOf(s.logs, c) + reply.messages
            && forall d :: d != c ==> LogOf(t.logs, d) == LogOf(s.logs, d)
  {
    LastIsLength(s.logs, c);
    ForwardIsChecked(s, actor, ids, c, merged, minteds, now);
    AppendAllAppends(s, actor, c, ForwardContents(Sources(s, actor, ids, merged).value, merged), minteds, |LogOf(s.logs, c)|,
                     s.conversations[c].members.Keys, now);
  }

  ghost predicate AreTold(events: seq<UserEvent>, messages: seq<Message>, recipients: set<UserId>) {
    |events| == |messages|
    && forall k :: 0 <= k < |messages| ==> events[k].recipients == recipients && events[k].event.body == MessageCreated(messages[k])
  }

  lemma {:induction false} AppendAllTells(s: State, actor: UserId, c: ConversationId, contents: seq<Content>,
                                          minteds: seq<Minted>, last: nat, recipients: set<UserId>, now: Time)
    requires |minteds| >= |contents|
    ensures var r := AppendAll(s, actor, c, contents, minteds, last, recipients, now);
            r.Ok? ==> s.events <= r.value.0.events && AreTold(r.value.0.events[|s.events|..], r.value.1, recipients)
    decreases |contents|
  {
    if contents != [] {
      var first := AppendForwarded(s, actor, c, contents[0], minteds[0], last + 1, recipients, now);
      if first.Ok? {
        var next := first.value.0;
        AppendAllTells(next, actor, c, contents[1..], minteds[1..], last + 1, recipients, now);
        var r := AppendAll(next, actor, c, contents[1..], minteds[1..], last + 1, recipients, now);
        if r.Ok? {
          OneMoreIsTold(s.events, next.events, r.value.0.events, first.value.1, r.value.1, recipients);
        }
      }
    }
  }

  lemma OneMoreIsTold(before: seq<UserEvent>, next: seq<UserEvent>, after: seq<UserEvent>, first: Message, rest: seq<Message>,
                      recipients: set<UserId>)
    requires before <= next && |next| == |before| + 1 && next[|before|].recipients == recipients
    requires next[|before|].event.body == MessageCreated(first) && next <= after && AreTold(after[|next|..], rest, recipients)
    ensures before <= after && AreTold(after[|before|..], [first] + rest, recipients)
  {
    assert after[|before|..] == [next[|before|]] + after[|next|..];
  }

  /** The members of the target are told of each forwarded message, in order. */
  lemma ForwardIsTold(s: State, actor: UserId, ids: seq<MessageId>, c: ConversationId, merged: bool, minteds: seq<Minted>, now: Time)
    requires |minteds| == |ids| && Forwards(s, actor, ids, c, merged, minteds, now).Ok? && c in s.conversations
    ensures var (t, reply) := Forwards(s, actor, ids, c, merged, minteds, now).value;
            && reply.Messages? && s.events <= t.events
            && AreTold(t.events[|s.events|..], reply.messages, s.conversations[c].members.Keys)
  {
    ForwardIsChecked(s, actor, ids, c, merged, minteds, now);
    AppendAllTells(s, actor, c, ForwardContents(Sources(s, actor, ids, merged).value, merged), minteds,
                   LastSequence(LogOf(s.logs, c)), s.conversations[c].members.Keys, now);
  }

  /** What is forwarded is one bundle of all the originals in order, or each original's own content in order; every
      original is a message the forwarder can read. */
  lemma ForwardedContentIsOriginal(s: State, actor: UserId, ids: seq<MessageId>, merged: bool, k: nat)
    requires Sources(s, actor, ids, merged).Ok? && k < |ids|
    ensures var contents := ForwardContents(Sources(s, actor, ids, merged).value, merged);
            && FindMessage(s.logs, ids[k]).Ok?
            && var original := FindMessage(s.logs, ids[k]).value;
               && original.conversation in s.conversations && s.conversations[original.conversation].CanRead(actor)
               && if merged
                  then |contents| == 1 && contents[0].Bundle? && |contents[0].messages| == |ids|
                       && contents[0].messages[k].content == original.content
                       && contents[0].messages[k].sender == original.sender
                  else |contents| == |ids| && contents[k] == original.content
  {
    SourcesAreOriginals(s, actor, ids, merged, k);
  }

  // ----- recalls and receipts -----

  /** A recall changes one message of one log, which then reads as recalled and has no expiry; its sender may do it, or an
      administrator of the group. */
  lemma RecallChangesOne(s: State, actor: UserId, id: MessageId, now: Time) returns (c: ConversationId, i: nat)
    requires Inv(s) && RecallMessage(s, actor, id, now).Ok?
    ensures HoldsAt(s.logs, c, i, id)
    ensures var t := RecallMessage(s, actor, id, now).value.0;
            && t.logs.Keys == s.logs.Keys
            && t.logs[c][..i] == s.logs[c][..i] && t.logs[c][i + 1..] == s.logs[c][i + 1..] && |t.logs[c]| == |s.logs[c]|
            && t.logs[c][i] == s.logs[c][i].(status := Recalled, content := System(MessageRecalled))
            && (forall d :: d in s.logs && d != c ==> t.logs[d] == s.logs[d])
            && t.expirations == s.expirations - {id}
            && (s.logs[c][i].sender == actor
                || (c in s.conversations && s.conversations[c].kind.Group? && s.conversations[c].HasRoleAtLeast(actor, Administrator)))
  {
    c, i :| HoldsAt(s.logs, c, i, id);
    FindIsExact(s.logs, c, i, id);
    assert Placed(s.logs[c][i], c, i);
    forall j: nat | j < |s.logs[c]| && s.logs[c][j].id == id ensures j == i {
      assert HoldsAt(s.logs, c, j, id);
    }
  }

  /** An acknowledged delivery adds the reader, who is not the sender, to one receipt, and tells the sender alone. */
  lemma DeliveryIsExact(s: State, actor: UserId, id: MessageId, now: Time)
    requires Deliver(s, actor, id, now).Ok?
    ensures var t := Deliver(s, actor, id, now).value.0;
            var original := FindMessage(s.logs, id).value;
            && original.sender != actor
            && ReceiptOf(t.receipts, id).deliveredTo == ReceiptOf(s.receipts, id).deliveredTo + {actor}
            && ReceiptOf(t.receipts, id).readBy == ReceiptOf(s.receipts, id).readBy
            && (forall other :: other != id ==> ReceiptOf(t.receipts, other) == ReceiptOf(s.receipts, other))
            && t.logs == s.logs && |t.events| == |s.events| + 1
            && t.events[|s.events|].recipients == {original.sender}
  {
  }

  // ----- schedules -----

  /** The key is neither pending nor already sent. */
  predicate IsUnusedKey(s: State, actor: UserId, clientId: MessageId) {
    (actor, clientId) !in s.dedup && forall e :: e in s.scheduled ==> !SameKey(e, actor, clientId)
  }

  /** A schedule is accepted exactly for an acceptable message of someone who may send, ten seconds to thirty days ahead,
      under an unused key. It is then the last one pending and nothing else has changed, and its key is taken. */
  lemma ScheduleIsExact(s: State, item: Scheduled, now: Time, again: Scheduled, later: Time)
    ensures ScheduleMessage(s, item, now).Ok? <==>
              && ContentIsValid(item.request.content) && CheckMentions(s, item.actor, item.conversation, item.request).Ok?
              && 10 <= item.dueAt - now <= 30 * DAY && ExpiryInRange(item.request.expiresIn)
              && item.conversation in s.conversations && s.conversations[item.conversation].CanSend(item.actor, now)
              && IsUnusedKey(s, item.actor, item.request.clientId)
    ensures var r := ScheduleMessage(s, item, now);
            r.Ok? ==>
              && r.value.0 == s.(scheduled := r.value.0.scheduled) && r.value.0.scheduled == s.scheduled + [item]
              && (again.actor == item.actor && again.request.clientId == item.request.clientId ==>
                    ScheduleMessage(r.value.0, again, later).Err?)
  {
    var t := s.(scheduled := s.scheduled + [item]);
    assert item in t.scheduled;
  }

  lemma FoundExactly(s: State, c: ConversationId, i: nat, id: MessageId)
    requires UniqueIds(s.logs) && HoldsAt(s.logs, c, i, id)
    ensures FindMessage(s.logs, id) == Ok(s.logs[c][i])
  {
    FindIsExact(s.logs, c, i, id);
  }

  /** Who may recall a message, and for how long: its sender for two minutes, in a group as a member; an administrator of the
      group at any time, except for their own. A recalled message is not recalled again. */
  lemma RecallIsAllowedExactly(s: State, actor: UserId, id: MessageId, now: Time, c: ConversationId, i: nat)
    requires Inv(s) && HoldsAt(s.logs, c, i, id)
    ensures var m := s.logs[c][i];
            var r := RecallMessage(s, actor, id, now);
            var inGroup := c in s.conversations && s.conversations[c].kind.Group?;
            var administers := inGroup && actor in s.conversations[c].members && s.conversations[c].members[actor].role != Member;
            && (r.Ok? <==>
                  && c in s.conversations && (inGroup ==> actor in s.conversations[c].members)
                  && (m.sender == actor || administers)
                  && m.status != Recalled && (m.sender == actor ==> now - m.createdAt <= 120))
            && (r.Err? ==> r.error == if c !in s.conversations then NotFound
                                      else if (inGroup && actor !in s.conversations[c].members) || (m.sender != actor && !administers)
                                      then Forbidden else Conflict)
  {
    FoundExactly(s, c, i, id);
    assert Placed(s.logs[c][i], c, i);
  }

  /** The members of the conversation are told of a recall. */
  lemma RecallIsTold(s: State, actor: UserId, id: MessageId, now: Time, c: ConversationId, i: nat)
    requires Inv(s) && HoldsAt(s.logs, c, i, id) && RecallMessage(s, actor, id, now).Ok? && c in s.conversations
    ensures var t := RecallMessage(s, actor, id, now).value.0;
            var recalled := s.logs[c][i].(status := Recalled, content := System(MessageRecalled));
            && t.events == s.events + [UserEvent(s.conversations[c].members.Keys, Event(s.cursor + 1, MessageRecalledEvent(recalled), now))]
            && t == s.(logs := t.logs, expirations := t.expirations, events := t.events, cursor := s.cursor + 1)
  {
    FoundExactly(s, c, i, id);
    assert Placed(s.logs[c][i], c, i);
  }

  lemma NothingToRecall(s: State, actor: UserId, id: MessageId, now: Time)
    requires forall c, i: nat :: !HoldsAt(s.logs, c, i, id)
    ensures RecallMessage(s, actor, id, now) == Err(NotFound) && Deliver(s, actor, id, now) == Err(NotFound)
  {
  }

  /** A delivery is acknowledged by members of the conversation other than the sender. */
  lemma DeliveryIsAllowedExactly(s: State, actor: UserId, id: MessageId, now: Time, c: ConversationId, i: nat)
    requires Inv(s) && HoldsAt(s.logs, c, i, id)
    ensures Deliver(s, actor, id, now).Ok? <==>
              c in s.conversations && actor in s.conversations[c].members && s.logs[c][i].sender != actor
  {
    FoundExactly(s, c, i, id);
    assert Placed(s.logs[c][i], c, i);
  }

  // ----- reading -----

  /** Other people's messages past a sequence. */
  function UnreadPlaces(log: seq<Message>, reader: UserId, lastRead: nat): set<nat> {
    set i: nat | i < |log| && log[i].sender != reader && lastRead <= i
  }

  /** The unread count is the number of other people's messages with a sequence above the last one read. */
  lemma {:induction false} UnreadIsCounted(log: seq<Message>, reader: UserId, lastRead: nat)
    requires forall i :: 0 <= i < |log| ==> log[i].sequence == Some(i + 1)
    ensures Unread(log, reader, lastRead) == |UnreadPlaces(log, reader, lastRead)|
  {
    if log == [] {
      assert UnreadPlaces(log, reader, lastRead) == {};
    } else {
      var n := |log| - 1;
      UnreadIsCounted(log[..n], reader, lastRead);
      var before := UnreadPlaces(log[..n], reader, lastRead);
      if log[n].sender != reader && lastRead <= n {
        assert UnreadPlaces(log, reader, lastRead) == before + {n};
      } else {
        assert UnreadPlaces(log, reader, lastRead) == before;
      }
    }
  }

  lemma ReadLogIsNumbered(s: State, c: ConversationId)
    requires Inv(s)
    ensures forall i :: 0 <= i < |LogOf(s.logs, c)| ==> LogOf(s.logs, c)[i].sequence == Some(i + 1)
  {
    forall i | 0 <= i < |LogOf(s.logs, c)| ensures LogOf(s.logs, c)[i].sequence == Some(i + 1) {
      assert Placed(s.logs[c][i], c, i);
    }
  }

  /** Members read, and reading up to a sequence moves the reader's last read and read position forward to it, or to the end
      of the log, and nobody else's. The unread count is then of other people's messages above that, so zero at the end. */
  lemma ReadingIsExact(s: State, actor: UserId, c: ConversationId, through: nat, now: Time, k: (UserId, ConversationId))
    requires Inv(s)
    ensures ReadUpTo(s, actor, c, through, now).Ok? <==> c in s.conversations && actor in s.conversations[c].members
    ensures ReadUpTo(s, actor, c, through, now).Ok? ==>
              var t := ReadUpTo(s, actor, c, through, now).value.0;
              var log := LogOf(s.logs, c);
              var n := if through < |log| then through else |log|;
              var lastRead := SettingsOf(t, actor, c).lastRead;
              && lastRead == (if SettingsOf(s, actor, c).lastRead < n then n else SettingsOf(s, actor, c).lastRead)
              && ReadPosition(t, actor, c) == (if ReadPosition(s, actor, c) < n then n else ReadPosition(s, actor, c))
              && !SettingsOf(t, actor, c).manuallyUnread
              && (k != (actor, c) ==> SettingsOf(t, k.0, k.1) == SettingsOf(s, k.0, k.1)
                                      && ReadPosition(t, k.0, k.1) == ReadPosition(s, k.0, k.1))
              && t.logs == s.logs && Unread(log, actor, lastRead) == |UnreadPlaces(log, actor, lastRead)|
              && (through >= |log| ==> Unread(log, actor, lastRead) == 0)
              && t.events == s.events + [UserEvent(s.conversations[c].members.Keys, Event(s.cursor + 1, ReadThrough(actor, c, n), now))]
  {
    LastIsLength(s.logs, c);
    if ReadUpTo(s, actor, c, through, now).Ok? {
      var t := ReadUpTo(s, actor, c, through, now).value.0;
      var log := LogOf(s.logs, c);
      ReadLogIsNumbered(s, c);
      UnreadIsCounted(log, actor, SettingsOf(t, actor, c).lastRead);
      if through >= |log| {
        assert UnreadPlaces(log, actor, SettingsOf(t, actor, c).lastRead) == {};
      }
    }
  }

  lemma KeysAreReadable(s: State, actor: UserId, k: (UserId, ConversationId))
    ensures k in ReadableKeys(s, actor) <==> k.0 == actor && k.1 in s.conversations && actor in s.conversations[k.1].members
  {
  }

  lemma LatestIsShown(s: State, actor: UserId, now: Time, k: (UserId, ConversationId))
    ensures ReadEverything(s, actor, now).Ok?
    ensures var t := ReadEverything(s, actor, now).value.0;
            var latest := LastSequence(LogOf(s.logs, k.1));
            && t.logs == s.logs && t.receipts == s.receipts && t.conversations == s.conversations
            && (if k in ReadableKeys(s, actor)
                then SettingsOf(t, k.0, k.1) == Settings(latest, false) && ReadPosition(t, k.0, k.1) == latest
                else SettingsOf(t, k.0, k.1) == SettingsOf(s, k.0, k.1) && ReadPosition(t, k.0, k.1) == ReadPosition(s, k.0, k.1))
  {
    assert (k.0, k.1) == k;
  }

  /** Marking everything read brings the reader to the end of every readable conversation, and changes nothing else. */
  lemma MarkAllReadIsExact(s: State, actor: UserId, now: Time, k: (UserId, ConversationId))
    requires Inv(s)
    ensures ReadEverything(s, actor, now).Ok?
    ensures var t := ReadEverything(s, actor, now).value.0;
            var end := |LogOf(s.logs, k.1)|;
            && t.logs == s.logs && t.receipts == s.receipts && t.conversations == s.conversations
            && if k.0 == actor && k.1 in s.conversations && actor in s.conversations[k.1].members
               then SettingsOf(t, k.0, k.1) == Settings(end, false) && ReadPosition(t, k.0, k.1) == end
               else SettingsOf(t, k.0, k.1) == SettingsOf(s, k.0, k.1) && ReadPosition(t, k.0, k.1) == ReadPosition(s, k.0, k.1)
  {
    LastIsLength(s.logs, k.1);
    KeysAreReadable(s, actor, k);
    LatestIsShown(s, actor, now, k);
  }

  /** A member sets or clears the mark of unread for themselves alone; the last read sequence stays. */
  lemma SettingsChangeIsExact(s: State, actor: UserId, c: ConversationId, mark: Option<bool>, now: Time, k: (UserId, ConversationId))
    ensures ChangeSettings(s, actor, c, mark, now).Ok? <==> c in s.conversations && actor in s.conversations[c].members
    ensures ChangeSettings(s, actor, c, mark, now).Ok? ==>
              var t := ChangeSettings(s, actor, c, mark, now).value.0;
              && t.readPositions == s.readPositions && t.logs == s.logs
              && SettingsOf(t, actor, c).lastRead == SettingsOf(s, actor, c).lastRead
              && (mark.Some? ==> SettingsOf(t, actor, c).manuallyUnread == mark.value)
              && (mark.None? ==> SettingsOf(t, actor, c) == SettingsOf(s, actor, c))
              && (k != (actor, c) ==> SettingsOf(t, k.0, k.1) == SettingsOf(s, k.0, k.1))
  {
  }

  // ----- attachments -----

  /** The life of an upload: authorised by its owner for ten minutes, usable once completed in that time and not quarantined,
      and quarantined for a week instead if it was not completed. Nobody else's record changes. */
  lemma UploadIsExact(s: State, actor: UserId, id: AttachmentId, byteSize: nat, metadata: string, now: Time, later: Time)
    ensures Authorize(s, actor, id, byteSize, metadata, now).Ok?
    ensures var t := Authorize(s, actor, id, byteSize, metadata, now).value.0;
            && id in t.attachments && t.attachments[id].owner == actor
            && !t.attachments[id].available && !t.attachments[id].quarantined
            && t.attachments[id].attachment.byteSize == byteSize && t.attachments[id].attachment.metadata == metadata
            && (Complete(t, actor, id, later).Ok? <==> later < now + 600)
            && Quarantine(t, actor, id, later).Ok?
            && t.attachments - {id} == s.attachments - {id}
  {
  }

  lemma CompletionIsExact(s: State, actor: UserId, id: AttachmentId, now: Time)
    ensures var r := Complete(s, actor, id, now);
            && (r.Ok? <==> id in s.attachments && s.attachments[id].owner == actor && now < s.attachments[id].expiresAt
                           && !s.attachments[id].quarantined)
            && (r.Ok? ==> r.value.0 == s.(attachments := s.attachments[id := s.attachments[id].(available := true)]))
            && (r.Err? ==> r.error == if id !in s.attachments || s.attachments[id].owner != actor then NotFound
                                      else if s.attachments[id].expiresAt <= now then Conflict else Forbidden)
  {
  }

  /** A quarantined upload can never be completed; a completed one can never be quarantined. */
  lemma QuarantineIsExact(s: State, actor: UserId, id: AttachmentId, now: Time, later: Time)
    ensures var r := Quarantine(s, actor, id, now);
            && (r.Ok? <==> id in s.attachments && s.attachments[id].owner == actor && !s.attachments[id].available)
            && (r.Ok? ==> && id in r.value.0.attachments && Complete(r.value.0, actor, id, later).Err?
                          && r.value.0.attachments[id].expiresAt == now + 7 * 86400
                          && r.value.0.attachments - {id} == s.attachments - {id})
  {
  }

  // ----- forwarding: who may -----

  lemma {:induction false} AppendAllSucceeds(s: State, actor: UserId, c: ConversationId, contents: seq<Content>,
                                             minteds: seq<Minted>, last: nat, recipients: set<UserId>, now: Time)
    requires |minteds| >= |contents|
    ensures AppendAll(s, actor, c, contents, minteds, last, recipients, now).Ok? <==>
              forall content :: content in contents ==> ContentIsValid(content)
    decreases |contents|
  {
    if contents != [] {
      var first := AppendForwarded(s, actor, c, contents[0], minteds[0], last + 1, recipients, now);
      if first.Ok? {
        AppendAllSucceeds(first.value.0, actor, c, contents[1..], minteds[1..], last + 1, recipients, now);
      }
    }
  }

  /** A forward is accepted exactly for one to a hundred different readable originals, at least two when merged, into a
      conversation the forwarder may write to; what it makes must be valid content. Unlike a send it asks neither for
      blocks nor for the muting of a whole group. */
  lemma ForwardIsAcceptedExactly(s: State, actor: UserId, ids: seq<MessageId>, c: ConversationId, merged: bool,
                                 minteds: seq<Minted>, now: Time)
    requires |minteds| == |ids|
    ensures Forwards(s, actor, ids, c, merged, minteds, now).Ok? <==>
              && (if merged then 2 else 1) <= |ids| <= 100 && (forall i, j :: 0 <= i < j < |ids| ==> ids[i] != ids[j])
              && Sources(s, actor, ids, merged).Ok? && c in s.conversations && s.conversations[c].CanSend(actor, now)
              && forall content :: content in ForwardContents(Sources(s, actor, ids, merged).value, merged) ==> ContentIsValid(content)
    ensures Sources(s, actor, ids, merged).Ok? <==> forall k :: 0 <= k < |ids| ==> Source(s, actor, ids[k], merged).Ok?
  {
    var k := SourcesFailFirst(s, actor, ids, merged);
    if Sources(s, actor, ids, merged).Ok? && c in s.conversations && ids != [] {
      AppendAllSucceeds(s, actor, c, ForwardContents(Sources(s, actor, ids, merged).value, merged), minteds,
                        LastSequence(LogOf(s.logs, c)), s.conversations[c].members.Keys, now);
    }
  }

  /** A source is a message of a log, not written by the server, in a conversation the forwarder belongs to. */
  lemma SourceIsAllowedExactly(s: State, actor: UserId, id: MessageId, merged: bool, c: ConversationId, i: nat)
    requires Inv(s) && HoldsAt(s.logs, c, i, id)
    ensures Source(s, actor, id, merged).Ok? <==>
              && c in s.conversations && actor in s.conversations[c].members && !s.logs[c][i].content.System?
              && (merged ==> !s.logs[c][i].content.Bundle?)
    ensures Source(s, actor, id, merged).Ok? ==>
              var m := s.logs[c][i];
              Source(s, actor, id, merged).value
              == Forwarded(m.sender, if m.sender in s.accounts then s.accounts[m.sender].nickname else "已注销用户", m.content,
                           if m.serverCreatedAt.Some? then m.serverCreatedAt.value else m.createdAt)
  {
    FoundExactly(s, c, i, id);
    assert Placed(s.logs[c][i], c, i);
  }

  // ----- groups -----

  /** Invitations add exactly the invited, as plain members, leave everybody else's entry alone, and need the inviter to be
      a member and a friend of each. */
  lemma InvitationAddsExactly(s: State, actor: UserId, c: ConversationId, invited: seq<UserId>, minted: Minted, now: Time, u: UserId)
    requires InviteMembers(s, actor, c, invited, minted, now).Ok?
    ensures c in s.conversations && c in InviteMembers(s, actor, c, invited, minted, now).value.0.conversations
    ensures var before := s.conversations[c].members;
            var after := InviteMembers(s, actor, c, invited, minted, now).value.0.conversations[c].members;
            && actor in before && |after| <= MAX_GROUP_MEMBERS
            && (u in after <==> u in before || u in invited)
            && (u in before ==> after[u] == before[u])
            && (u in invited ==> AreFriends(s, actor, u) && u in s.accounts)
            && (u in invited && u !in before ==> after[u] == Participant(Member, None, now))
  {
    InvitationIsChecked(s, actor, c, invited, minted, now);
    if u in invited {
      AllInvitedAreFriends(s, actor, invited, u);
    }
    var newcomers := Newcomers(s.conversations[c], invited);
    WelcomeShows(s, actor, c, Admit(s.conversations[c], newcomers, now), newcomers, minted, now);
  }

  lemma NoticeTouches(s: State, c: ConversationId, actor: UserId, notice: Notice, minted: Minted, now: Time)
    requires c in s.conversations
    ensures var r := PostNotice(s, c, actor, notice, minted, now);
            r.Ok? && r.value.conversations == s.conversations[c := s.conversations[c].(updatedAt := now)]
  {
  }

  lemma NobodyNewIsShown(s: State, actor: UserId, c: ConversationId, admitted: Conversation, minted: Minted, now: Time)
    ensures var r := Welcome(s, actor, c, admitted, {}, minted, now);
            r.Ok? && r.value.0.conversations == s.conversations[c := admitted]
  {
  }

  lemma NewcomersAreShown(s: State, actor: UserId, c: ConversationId, admitted: Conversation, newcomers: set<UserId>,
                          minted: Minted, now: Time)
    requires newcomers != {}
    ensures var r := Welcome(s, actor, c, admitted, newcomers, minted, now);
            r.Ok? && r.value.0.conversations == s.conversations[c := admitted.(updatedAt := now)]
  {
    var joined := Replace(s, c, admitted).(settings := s.settings + Defaults(NewKeys(c, newcomers)));
    NoticeTouches(joined, c, actor, MembersInvited(|newcomers|), minted, now);
    assert joined.conversations[c := joined.conversations[c].(updatedAt := now)] == s.conversations[c := admitted.(updatedAt := now)];
  }

  lemma WelcomeShows(s: State, actor: UserId, c: ConversationId, admitted: Conversation, newcomers: set<UserId>, minted: Minted,
                     now: Time)
    ensures var r := Welcome(s, actor, c, admitted, newcomers, minted, now);
            r.Ok? && c in r.value.0.conversations && r.value.0.conversations[c].members == admitted.members
  {
    if newcomers == {} {
      NobodyNewIsShown(s, actor, c, admitted, minted, now);
    } else {
      NewcomersAreShown(s, actor, c, admitted, newcomers, minted, now);
    }
  }

  /** A successful invitation has passed every check and welcomes the newcomers. */
  lemma InvitationIsChecked(s: State, actor: UserId, c: ConversationId, invited: seq<UserId>, minted: Minted, now: Time)
    requires InviteMembers(s, actor, c, invited, minted, now).Ok?
    ensures c in s.conversations && s.conversations[c].CanRead(actor) && CheckInvited(s, actor, invited).Ok?
    ensures var newcomers := Newcomers(s.conversations[c], invited);
            var admitted := Admit(s.conversations[c], newcomers, now);
            && |admitted.members| <= MAX_GROUP_MEMBERS
            && InviteMembers(s, actor, c, invited, minted, now) == Welcome(s, actor, c, admitted, newcomers, minted, now)
  {
  }

  lemma {:induction false} AllInvitedAreFriends(s: State, actor: UserId, invited: seq<UserId>, u: UserId)
    requires CheckInvited(s, actor, invited).Ok? && u in invited
    ensures AreFriends(s, actor, u) && u in s.accounts && u != actor
  {
    if u != invited[0] {
      AllInvitedAreFriends(s, actor, invited[1..], u);
    }
  }

  /** Editing a member changes that entry alone. Roles are given by the owner only, and ownership is neither given nor taken
      this way; muting needs an administrator of strictly higher rank. */
  lemma EditNeedsRank(s: State, actor: UserId, c: ConversationId, target: UserId, renamed: bool, role: Option<Role>,
                      mutedUntil: Option<Option<Time>>, minted: Minted, now: Time)
    requires EditMember(s, actor, c, target, renamed, role, mutedUntil, minted, now).Ok?
    ensures c in s.conversations && c in EditMember(s, actor, c, target, renamed, role, mutedUntil, minted, now).value.0.conversations
    ensures var before := s.conversations[c].members;
            var after := EditMember(s, actor, c, target, renamed, role, mutedUntil, minted, now).value.0.conversations[c].members;
            && after.Keys == before.Keys && actor in before && target in before
            && (forall u :: u in before && u != target ==> after[u] == before[u])
            && after[target].joinedAt == before[target].joinedAt
            && (after[target].role != before[target].role ==>
                  before[actor].role == Owner && after[target].role != Owner && before[target].role != Owner)
            && (after[target].mutedUntil != before[target].mutedUntil ==>
                  before[actor].role != Member && before[target].role.Rank() < before[actor].role.Rank())
  {
  }

  /** A join request is decided once, by an administrator. Accepting it gives the applicant a plain entry and default
      settings, rejecting it changes no member; nobody else's entry and no other request changes either way. */
  lemma JoinDecisionIsExact(s: State, actor: UserId, request: RequestId, accept: bool, minted: Minted, now: Time,
                            other: UserId, again: bool, later: Time)
    requires ReviewJoin(s, actor, request, accept, minted, now).Ok?
    ensures request in s.joinRequests && s.joinRequests[request].conversation in s.conversations
    ensures var t := ReviewJoin(s, actor, request, accept, minted, now).value.0;
            var JoinRequest(c, applicant, status) := s.joinRequests[request];
            && s.conversations[c].HasRoleAtLeast(actor, Administrator) && c in t.conversations
            && t.conversations[c].members
               == (if accept then s.conversations[c].members[applicant := Participant(Member, None, now)] else s.conversations[c].members)
            && (accept ==> SettingsOf(t, applicant, c) == DEFAULT_SETTINGS)
            && t.joinRequests.Keys == s.joinRequests.Keys
            && (forall r :: r in s.joinRequests && r != request ==> t.joinRequests[r] == s.joinRequests[r])
            && ReviewJoin(t, other, request, again, minted, later) == Err(Conflict)
  {
    var JoinRequest(c, applicant, status) := s.joinRequests[request];
    if accept {
      var reviewed := s.(joinRequests := s.joinRequests[request := JoinRequest(c, applicant, Accepted)]);
      EnteringShows(reviewed, actor, request, c, s.conversations[c], applicant, minted, now);
    }
  }

  lemma EnteringShows(s: State, actor: UserId, request: RequestId, c: ConversationId, conversation: Conversation,
                      applicant: UserId, minted: Minted, now: Time)
    ensures var r := Enter(s, actor, request, c, conversation, applicant, minted, now);
            r.Ok? ==>
              && c in r.value.0.conversations && r.value.0.joinRequests == s.joinRequests
              && r.value.0.conversations[c].members == conversation.members[applicant := Participant(Member, None, now)]
              && SettingsOf(r.value.0, applicant, c) == DEFAULT_SETTINGS
  {
    var joined := Replace(s, c, conversation.(members := conversation.members[applicant := Participant(Member, None, now)],
                                              updatedAt := now))
                  .(settings := s.settings[(applicant, c) := DEFAULT_SETTINGS]);
    NoticeTouches(joined, c, actor, MemberJoined, minted, now);
    NoticeLeavesRequests(joined, c, actor, MemberJoined, minted, now);
  }

  lemma NoticeLeavesRequests(s: State, c: ConversationId, actor: UserId, notice: Notice, minted: Minted, now: Time)
    ensures var r := PostNotice(s, c, actor, notice, minted, now);
            r.Ok? ==> r.value.joinRequests == s.joinRequests && r.value.settings == s.settings
  {
  }

  // ----- account deletion -----

  /** A deleted account is in no conversation, friendship, block, setting, read position or schedule, and nothing that was
      sent is touched. */
  lemma DeletionLeavesNoTrace(s: State, actor: UserId, now: Time, c: ConversationId, other: UserId)
    requires Delete(s, actor, true, now).Ok? && other != actor
    ensures var t := Delete(s, actor, true, now).value.0;
            && t.accounts[actor].deleted && t.logs == s.logs && t.dedup == s.dedup && t.receipts == s.receipts
            && (c in t.conversations ==> actor !in t.conversations[c].members)
            && (c in s.conversations ==> c in t.conversations && (other in t.conversations[c].members <==> other in s.conversations[c].members))
            && (actor, c) !in t.settings && (actor, c) !in t.readPositions
            && (forall pair :: pair in t.friends <==> pair in s.friends && !Involves(pair, actor))
            && (forall pair :: pair in t.blocks <==> pair in s.blocks && !Involves(pair, actor))
            && (forall e :: e in t.scheduled <==> e in s.scheduled && e.actor != actor)
            && ReadPosition(t, other, c) == ReadPosition(s, other, c) && SettingsOf(t, other, c) == SettingsOf(s, other, c)
  {
    RetainIsSublist(s.scheduled, (e: Scheduled) => e.actor != actor);
    if c in s.conversations {
      DetachedMembers(s.conversations[c], actor, now);
    }
  }

  lemma DetachedMembers(conversation: Conversation, leaver: UserId, now: Time)
    ensures Detached(conversation, leaver, now).members.Keys == conversation.members.Keys - {leaver}
  {
  }
}
