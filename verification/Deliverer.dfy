/** The worker that sends due scheduled messages: one pass over a snapshot of the schedule, two transactions an entry. */
module Deliverer {
  import opened Domain
  import opened ServerState
  import opened ServerInvariants
  import opened ServerRuns
  import opened ServerTheorems
  import opened ServerKeys
  import opened Sending
  import opened Scheduling
  import opened ServerStore

  lemma SnapshotIsDue(s: State, now: Time)
    requires Inv(s)
    ensures var due := DueAt(s.scheduled, now);
            WorldInv(World(s, due, None, now)) && |due| <= |s.scheduled| && forall i :: 0 <= i < |due| ==> due[i].dueAt <= now
  {
    TickKeeps(World(s, [], None, now), now);
    RetainIsSublist(s.scheduled, (e: Scheduled) => e.dueAt <= now);
  }

  lemma SnapshotShrinks(s: State, item: Scheduled, rest: seq<Scheduled>, now: Time)
    requires WorldInv(World(s, [item] + rest, None, now))
    ensures WorldInv(World(s, rest, None, now))
  {
    assert forall d :: d in rest ==> d in [item] + rest;
  }

  /** After the send: the message is in a log, the schedule is untouched, and the other ids are still fresh. */
  lemma SentEntry(s: State, item: Scheduled, rest: seq<Scheduled>, id: MessageId, ids: seq<MessageId>, now: Time)
    requires WorldInv(World(s, [item] + rest, None, now)) && IsFresh(s, id) && AreFresh(s, ids) && id !in ids
    requires Apply(s, SendOf(item, id), now).Ok?
    ensures var t := Step(s, SendOf(item, id), now);
            && WorldInv(World(t, rest, Some(item), now)) && AreFresh(t, ids) && DeliveredGrows(s, t)
            && forall e :: e in s.scheduled ==> e in t.scheduled
  {
    var w := World(s, [item] + rest, None, now);
    SendDueKeeps(w, id);
    assert w.due[1..] == rest;
    StepKeeps(s, SendOf(item, id), now);
    forall e | e in s.scheduled ensures e in Step(s, SendOf(item, id), now).scheduled {
      StepSchedule(s, SendOf(item, id), now, e);
    }
    forall i | 0 <= i < |ids| ensures IsFresh(Step(s, SendOf(item, id), now), ids[i]) {
      SendLeavesFresh(s, item.actor, item.conversation, item.request, id, now, ids[i]);
    }
  }

  lemma DropIsExact(s: State, item: Scheduled, now: Time)
    ensures var t := Step(s, DropScheduled(item.id), now);
            && t.logs == s.logs && t.receipts == s.receipts && t.dedup == s.dedup
            && forall e :: e in t.scheduled <==> e in s.scheduled && e.id != item.id
  {
    RetainIsSublist(s.scheduled, (e: Scheduled) => e.id != item.id);
  }

  /** After the removal: that entry is gone, and every other one is still there. */
  lemma DroppedEntry(s: State, item: Scheduled, rest: seq<Scheduled>, now: Time)
    requires WorldInv(World(s, rest, Some(item), now))
    ensures var t := Step(s, DropScheduled(item.id), now);
            && WorldInv(World(t, rest, None, now)) && t.logs == s.logs && t.receipts == s.receipts && t.dedup == s.dedup
            && (forall e :: e in t.scheduled ==> e in s.scheduled && e.id != item.id)
            && (forall e :: e in s.scheduled && e != item ==> e in t.scheduled)
  {
    RemoveSentKeeps(World(s, rest, Some(item), now), true);
    DropIsExact(s, item, now);
  }

  /** What the two transactions of one entry do. */
  ghost predicate IsAttempt(s: State, t: State, item: Scheduled, id: MessageId, now: Time, sendPersists: bool,
                            dropPersists: bool, done: bool)
  {
    var r := SendMessage(s, item.actor, item.conversation, item.request, id, now);
    && (done <==> r.Ok? && sendPersists && dropPersists)
    && t == if r.Ok? && sendPersists
            then (if dropPersists then Step(r.value.0, DropScheduled(item.id), now) else r.value.0)
            else s
  }

  /** One entry of the pass: send it, and take it off the schedule if that worked. */
  method DeliverOne(store: Store, item: Scheduled, rest: seq<Scheduled>, id: MessageId, ids: seq<MessageId>, now: Time,
                    sendPersists: bool, dropPersists: bool) returns (done: bool)
    requires WorldInv(World(store.Value(), [item] + rest, None, now)) && IsFresh(store.Value(), id) && AreFresh(store.Value(), ids)
    requires id !in ids
    modifies store
    ensures WorldInv(World(store.Value(), rest, None, now)) && AreFresh(store.Value(), ids)
    ensures IsAttempt(old(store.Value()), store.Value(), item, id, now, sendPersists, dropPersists, done)
  {
    ghost var start := store.Value();
    SnapshotShrinks(start, item, rest, now);
    var sent, _ := store.Mutate(SendOf(item, id), now, sendPersists);
    if sent.Err? {
      return false;
    }
    SentEntry(start, item, rest, id, ids, now);
    done := RemoveDelivered(store, item, rest, ids, now, dropPersists);
  }

  /** Its removal, in a transaction of its own. */
  method RemoveDelivered(store: Store, item: Scheduled, rest: seq<Scheduled>, ids: seq<MessageId>, now: Time, persists: bool)
    returns (done: bool)
    requires WorldInv(World(store.Value(), rest, Some(item), now)) && AreFresh(store.Value(), ids)
    modifies store
    ensures WorldInv(World(store.Value(), rest, None, now)) && AreFresh(store.Value(), ids)
    ensures done == persists
    ensures store.Value() == if persists then Step(old(store.Value()), DropScheduled(item.id), now) else old(store.Value())
  {
    DroppedEntry(store.Value(), item, rest, now);
    var dropped, _ := store.Mutate(DropScheduled(item.id), now, persists);
    done := dropped.Ok?;
  }

  // ----- the whole pass -----

  function KeyOf(e: Scheduled): (UserId, MessageId) {
    (e.actor, e.request.clientId)
  }

  function KeysOf(due: seq<Scheduled>): (keys: seq<(UserId, MessageId)>)
    ensures |keys| == |due| && forall k :: 0 <= k < |due| ==> keys[k] == KeyOf(due[k])
  {
    seq(|due|, k requires 0 <= k < |due| => KeyOf(due[k]))
  }

  /** For each entry of a pass that begins in this state, whether its message arrives: the server would accept it, and the
      transaction persists. */
  ghost function Arrivals(s: State, due: seq<Scheduled>, persists: seq<(bool, bool)>, now: Time): (arrivals: seq<bool>)
    requires |due| <= |persists|
    ensures |arrivals| == |due|
    ensures forall k :: 0 <= k < |due| ==>
              arrivals[k] == (persists[k].0 && Accepts(s, due[k].actor, due[k].conversation, due[k].request, now))
  {
    seq(|due|, k requires 0 <= k < |due| =>
      persists[k].0 && Accepts(s, due[k].actor, due[k].conversation, due[k].request, now))
  }

  /** Those whose removal persists as well. */
  function Removals(arrivals: seq<bool>, persists: seq<(bool, bool)>): (removals: seq<bool>)
    requires |arrivals| <= |persists|
    ensures |removals| == |arrivals| && forall k :: 0 <= k < |arrivals| ==> removals[k] == (arrivals[k] && persists[k].1)
  {
    seq(|arrivals|, k requires 0 <= k < |arrivals| => arrivals[k] && persists[k].1)
  }

  function Count(flags: seq<bool>, n: nat): nat
    requires n <= |flags|
  {
    if n == 0 then 0 else Count(flags, n - 1) + (if flags[n - 1] then 1 else 0)
  }

  /** After `n` entries the schedule holds what it held but for the entries removed. */
  ghost predicate IsLeft(before: seq<Scheduled>, after: seq<Scheduled>, due: seq<Scheduled>, removals: seq<bool>, n: nat)
    requires n <= |due| == |removals|
  {
    forall e :: e in after <==> e in before && forall k :: 0 <= k < n && removals[k] ==> due[k] != e
  }

  /** After `n` entries: the server knows the keys it knew and those that arrived, and the schedule lacks exactly the entries
      that arrived and were removed. */
  ghost predicate HasDelivered(start: State, s: State, due: seq<Scheduled>, arrivals: seq<bool>, removals: seq<bool>, n: nat)
    requires n <= |due| == |arrivals| == |removals|
  {
    && Inv(start) && Inv(s) && SendsAlike(start, s)
    && IsTally(start.dedup.Keys, s.dedup.Keys, KeysOf(due), arrivals, n)
    && IsLeft(start.scheduled, s.scheduled, due, removals, n)
  }

  /** The snapshot holds exactly what is due, each entry once, under distinct keys and ids. */
  lemma DueIsExact(scheduled: seq<Scheduled>, now: Time)
    requires ScheduleInv(scheduled)
    ensures forall e :: e in DueAt(scheduled, now) <==> e in scheduled && e.dueAt <= now
    ensures ScheduleInv(DueAt(scheduled, now))
    ensures var due := DueAt(scheduled, now);
            forall i, j :: 0 <= i < j < |due| ==> due[i] != due[j] && KeysOf(due)[i] != KeysOf(due)[j]
  {
    RetainIsSublist(scheduled, (e: Scheduled) => e.dueAt <= now);
    RetainKeepsSchedule(scheduled, (e: Scheduled) => e.dueAt <= now);
  }

  lemma AttemptIsNoted(s: State, t: State, item: Scheduled, id: MessageId, now: Time, sendPersists: bool, dropPersists: bool,
                       done: bool)
    requires Inv(s) && IsFresh(s, id) && IsAttempt(s, t, item, id, now, sendPersists, dropPersists, done)
    ensures var accepted := SendMessage(s, item.actor, item.conversation, item.request, id, now).Ok?;
            && SendsAlike(s, t)
            && t.dedup.Keys == (if accepted && sendPersists then s.dedup.Keys + {KeyOf(item)} else s.dedup.Keys)
            && forall e :: e in t.scheduled <==> e in s.scheduled && !(done && e.id == item.id)
  {
    AlikeIsReflexive(s);
    var r := SendMessage(s, item.actor, item.conversation, item.request, id, now);
    if r.Ok? && sendPersists {
      SendFilesItsKey(s, item.actor, item.conversation, item.request, id, now);
      SendingLeavesAlike(s, item.actor, item.conversation, item.request, id, now);
      SendKeepsSchedule(s, item, id, now);
      if dropPersists {
        DropIsExact(r.value.0, item, now);
        DroppingLeavesAlike(r.value.0, item.id, now);
        AlikeJoins(s, r.value.0, t);
      }
    }
  }

  lemma SendKeepsSchedule(s: State, item: Scheduled, id: MessageId, now: Time)
    ensures var r := SendMessage(s, item.actor, item.conversation, item.request, id, now);
            r.Ok? ==> r.value.0.scheduled == s.scheduled
  {
  }

  lemma DroppingLeavesAlike(s: State, request: RequestId, now: Time)
    ensures SendsAlike(s, Step(s, DropScheduled(request), now))
  {
  }

  lemma LeftShrinks(before: seq<Scheduled>, after: seq<Scheduled>, later: seq<Scheduled>, due: seq<Scheduled>,
                    removals: seq<bool>, n: nat)
    requires n < |due| == |removals| && IsLeft(before, after, due, removals, n)
    requires ScheduleInv(before) && due[n] in before
    requires forall e :: e in later <==> e in after && !(removals[n] && e.id == due[n].id)
    ensures IsLeft(before, later, due, removals, n + 1)
  {
  }

  /** One attempt, as seen from the start of the pass. */
  lemma AttemptIsTallied(start: State, s: State, t: State, due: seq<Scheduled>, persists: seq<(bool, bool)>,
                         arrivals: seq<bool>, removals: seq<bool>, n: nat, id: MessageId, now: Time, done: bool)
    requires n < |due| == |arrivals| == |removals| <= |persists| && HasDelivered(start, s, due, arrivals, removals, n)
    requires forall i, j :: 0 <= i < j < |due| ==> KeysOf(due)[i] != KeysOf(due)[j]
    requires arrivals[n] == (persists[n].0 && Accepts(start, due[n].actor, due[n].conversation, due[n].request, now))
    requires removals[n] == (arrivals[n] && persists[n].1) && due[n] in start.scheduled
    requires Inv(t) && IsFresh(s, id) && IsAttempt(s, t, due[n], id, now, persists[n].0, persists[n].1, done)
    ensures HasDelivered(start, t, due, arrivals, removals, n + 1) && done == removals[n]
  {
    var e := due[n];
    NotYetTallied(start.dedup.Keys, s.dedup.Keys, KeysOf(due), arrivals, n);
    assert KeyOf(e) in s.dedup.Keys <==> KeyOf(e) in start.dedup.Keys;
    AcceptAlike(start, s, e.actor, e.conversation, e.request, now);
    AcceptsAnyId(s, e.actor, e.conversation, e.request, id, now);
    AttemptIsNoted(s, t, e, id, now, persists[n].0, persists[n].1, done);
    AlikeJoins(start, s, t);
    TallyGrows(start.dedup.Keys, s.dedup.Keys, t.dedup.Keys, KeysOf(due), arrivals, n);
    LeftShrinks(start.scheduled, s.scheduled, t.scheduled, due, removals, n);
  }

  lemma NothingDelivered(start: State, due: seq<Scheduled>, arrivals: seq<bool>, removals: seq<bool>)
    requires Inv(start) && |due| == |arrivals| == |removals|
    ensures HasDelivered(start, start, due, arrivals, removals, 0)
  {
    AlikeIsReflexive(start);
  }

  /** The next entry of the pass. */
  method DeliverNext(store: Store, due: seq<Scheduled>, i: nat, ids: seq<MessageId>, persists: seq<(bool, bool)>, now: Time,
                     ghost start: State, ghost arrivals: seq<bool>, ghost removals: seq<bool>) returns (done: bool)
    requires i < |due| == |arrivals| == |removals| <= |persists| && |due| <= |ids|
    requires forall j, k :: 0 <= j < k < |due| ==> KeysOf(due)[j] != KeysOf(due)[k]
    requires arrivals[i] == (persists[i].0 && Accepts(start, due[i].actor, due[i].conversation, due[i].request, now))
    requires removals[i] == (arrivals[i] && persists[i].1) && due[i] in start.scheduled
    requires WorldInv(World(store.Value(), due[i..], None, now)) && AreFresh(store.Value(), ids[i..])
    requires HasDelivered(start, store.Value(), due, arrivals, removals, i)
    modifies store
    ensures WorldInv(World(store.Value(), due[i + 1..], None, now)) && AreFresh(store.Value(), ids[i + 1..])
    ensures HasDelivered(start, store.Value(), due, arrivals, removals, i + 1) && done == removals[i]
  {
    assert due[i..] == [due[i]] + due[i + 1..];
    assert ids[i..][0] == ids[i] && ids[i..][1..] == ids[i + 1..];
    SplitFresh(store.Value(), ids[i..]);
    ghost var before := store.Value();
    done := DeliverOne(store, due[i], due[i + 1..], ids[i], ids[i + 1..], now, persists[i].0, persists[i].1);
    AttemptIsTallied(start, before, store.Value(), due, persists, arrivals, removals, i, ids[i], now, done);
  }

  /** `deliver_due_messages`: `ids` are the identifiers the sends may generate, `persists` whether each of the two
      transactions of each entry reaches the database. Whatever fails on the way, every entry is still scheduled or its
      message is in a log, and entries that are not due stay. Exactly the due messages the server accepts and stores arrive, and
      exactly those of them whose removal is stored as well leave the schedule and are counted. */
  method DeliverDue(store: Store, now: Time, ids: seq<MessageId>, persists: seq<(bool, bool)>) returns (delivered: nat)
    requires Inv(store.Value()) && AreFresh(store.Value(), ids)
    requires |ids| >= |store.scheduled| && |persists| >= |store.scheduled|
    modifies store
    ensures Inv(store.Value()) && DeliveredGrows(old(store.Value()), store.Value())
    ensures IsPromised(old(store.Value()), store.Value(), now)
    ensures delivered <= |DueAt(old(store.scheduled), now)| <= |persists|
    ensures var due := DueAt(old(store.scheduled), now);
            var arrivals := Arrivals(old(store.Value()), due, persists, now);
            && HasDelivered(old(store.Value()), store.Value(), due, arrivals, Removals(arrivals, persists), |due|)
            && delivered == Count(Removals(arrivals, persists), |due|)
  {
    ghost var start := store.Value();
    var due := DueAt(store.scheduled, now);
    SnapshotIsDue(start, now);
    DueIsExact(start.scheduled, now);
    ghost var arrivals := Arrivals(start, due, persists, now);
    ghost var removals := Removals(arrivals, persists);
    NothingDelivered(start, due, arrivals, removals);
    delivered := 0;
    for i := 0 to |due|
      invariant delivered <= i && delivered == Count(removals, i)
      invariant WorldInv(World(store.Value(), due[i..], None, now)) && AreFresh(store.Value(), ids[i..])
      invariant HasDelivered(start, store.Value(), due, arrivals, removals, i)
    {
      assert due[i] in due;
      var done := DeliverNext(store, due, i, ids, persists, now, start, arrivals, removals);
      if done {
        delivered := delivered + 1;
      }
    }
    PassKeepsPromises(start, store.Value(), due, arrivals, removals, now);
  }

  /** Every entry there was at the start is still scheduled, or was due and its message is in a log. */
  ghost predicate IsPromised(start: State, s: State, now: Time) {
    forall e :: e in start.scheduled ==> e in s.scheduled || (e.dueAt <= now && IsSent(s, e))
  }

  lemma PassKeepsPromises(start: State, s: State, due: seq<Scheduled>, arrivals: seq<bool>, removals: seq<bool>, now: Time)
    requires |due| == |arrivals| == |removals| && HasDelivered(start, s, due, arrivals, removals, |due|)
    requires forall k :: 0 <= k < |due| ==> due[k].dueAt <= now && (removals[k] ==> arrivals[k])
    ensures IsPromised(start, s, now) && DeliveredGrows(start, s)
  {
    forall e | e in start.scheduled && e !in s.scheduled ensures e.dueAt <= now && IsSent(s, e) {
      var k :| 0 <= k < |due| && removals[k] && due[k] == e;
      assert KeysOf(due)[k] == KeyOf(e);
      assert KeyOf(e) in s.dedup.Keys;
    }
    forall k | k in start.dedup ensures k in s.dedup {
      assert k in start.dedup.Keys && k in s.dedup.Keys;
    }
  }
}
