/** The client's pass over its ready outbox rows, each sent to the server and removed once the server has answered. */
module Outbox {
  import opened Domain
  import opened ServerState
  import opened ServerInvariants
  import opened ServerRuns
  import opened ServerTheorems
  import opened ServerStore
  import opened ServerKeys
  import opened Sending
  import opened Delivery

  /** What the network and the server's database do to one request. */
  datatype Fate = Lost | Unanswered(persists: bool) | Answered(persists: bool)

  /** The message of this row arrives: the server gets it, would accept it, and stores what it does. */
  ghost predicate Arrives(s: State, user: UserId, key: MessageId, row: QueuedRow, fate: Fate, now: Time) {
    && WellFormed(key, row) && !fate.Lost? && fate.persists
    && Accepts(s, user, row.conversation, row.request.value, now)
  }

  /** For each row of a pass that begins in this state, whether its message arrives. */
  ghost function Arrivals(s: State, user: UserId, rows: map<MessageId, QueuedRow>, ready: seq<MessageId>, fates: seq<Fate>,
                          now: Time): (arrivals: seq<bool>)
    requires |ready| <= |fates| && forall key :: key in ready ==> key in rows
    ensures |arrivals| == |ready|
    ensures forall k :: 0 <= k < |ready| ==> arrivals[k] == Arrives(s, user, ready[k], rows[ready[k]], fates[k], now)
  {
    seq(|ready|, k requires 0 <= k < |ready| => ready[k] in rows && Arrives(s, user, ready[k], rows[ready[k]], fates[k], now))
  }

  /** The keys of a user's messages the server knows. */
  ghost function Known(s: State, user: UserId): set<MessageId> {
    set k | k in s.dedup && k.0 == user :: k.1
  }

  lemma KnownIsDelivered(s: State, user: UserId, key: MessageId)
    ensures key in Known(s, user) <==> IsDelivered(s, user, key)
  {
  }

  /** The server knows the messages it knew before and those that arrived among the first `n` rows. */
  ghost predicate HasArrived(start: State, s: State, user: UserId, ready: seq<MessageId>, arrivals: seq<bool>, n: nat)
    requires n <= |ready| == |arrivals|
  {
    && Inv(start) && Inv(s) && SendsAlike(start, s) && DeliveredGrows(start, s)
    && IsTally(Known(start, user), Known(s, user), ready, arrivals, n)
  }

  /** One request, as far as it gets. */
  ghost predicate IsPosted(s: State, t: State, user: UserId, row: QueuedRow, id: MessageId, now: Time, fate: Fate)
    requires row.request.Some?
  {
    var r := SendMessage(s, user, row.conversation, row.request.value, id, now);
    t == if !fate.Lost? && fate.persists && r.Ok? then r.value.0 else s
  }

  /** What a post does, as seen from the start of the pass. */
  lemma PostIsSeen(start: State, s: State, t: State, user: UserId, row: QueuedRow, id: MessageId, now: Time, fate: Fate)
    requires row.request.Some? && Inv(start) && Inv(s) && SendsAlike(start, s)
    requires IsDelivered(s, user, row.request.value.clientId) <==> IsDelivered(start, user, row.request.value.clientId)
    requires IsFresh(s, id) && IsPosted(s, t, user, row, id, now, fate)
    ensures SendsAlike(start, t)
    ensures SendMessage(s, user, row.conversation, row.request.value, id, now).Ok?
            <==> Accepts(start, user, row.conversation, row.request.value, now)
    ensures Known(t, user) == if Arrives(start, user, row.request.value.clientId, row, fate, now)
                              then Known(s, user) + {row.request.value.clientId} else Known(s, user)
  {
    var request := row.request.value;
    AcceptAlike(start, s, user, row.conversation, request, now);
    AcceptsAnyId(s, user, row.conversation, request, id, now);
    PostIsNoted(s, t, user, row, id, now, fate);
    AlikeJoins(start, s, t);
    KnownFollows(s, t, user, request.clientId);
  }

  lemma KnownFollows(s: State, t: State, user: UserId, key: MessageId)
    ensures t.dedup.Keys == s.dedup.Keys + {(user, key)} ==> Known(t, user) == Known(s, user) + {key}
    ensures t.dedup.Keys == s.dedup.Keys ==> Known(t, user) == Known(s, user)
  {
    if t.dedup.Keys == s.dedup.Keys + {(user, key)} {
      forall other ensures other in Known(t, user) <==> other in Known(s, user) + {key} {
        KnownIsDelivered(t, user, other);
        KnownIsDelivered(s, user, other);
        assert (user, other) in t.dedup.Keys <==> (user, other) in s.dedup.Keys + {(user, key)};
      }
    }
    if t.dedup.Keys == s.dedup.Keys {
      forall other ensures other in Known(t, user) <==> other in Known(s, user) {
        KnownIsDelivered(t, user, other);
        KnownIsDelivered(s, user, other);
        assert (user, other) in t.dedup.Keys <==> (user, other) in s.dedup.Keys;
      }
    }
  }

  lemma PostIsTallied(start: State, s: State, t: State, user: UserId, row: QueuedRow, id: MessageId, now: Time,
                      ready: seq<MessageId>, fates: seq<Fate>, arrivals: seq<bool>, n: nat)
    requires n < |ready| == |arrivals| <= |fates| && HasArrived(start, s, user, ready, arrivals, n)
    requires forall i, j :: 0 <= i < j < |ready| ==> ready[i] != ready[j]
    requires WellFormed(ready[n], row) && arrivals[n] == Arrives(start, user, ready[n], row, fates[n], now)
    requires IsFresh(s, id) && Inv(t) && DeliveredGrows(s, t) && IsPosted(s, t, user, row, id, now, fates[n])
    ensures HasArrived(start, t, user, ready, arrivals, n + 1)
    ensures arrivals[n] <==>
              !fates[n].Lost? && fates[n].persists && SendMessage(s, user, row.conversation, row.request.value, id, now).Ok?
  {
    NotYetTallied(Known(start, user), Known(s, user), ready, arrivals, n);
    KnownIsDelivered(start, user, ready[n]);
    KnownIsDelivered(s, user, ready[n]);
    PostIsSeen(start, s, t, user, row, id, now, fates[n]);
    TallyGrows(Known(start, user), Known(s, user), Known(t, user), ready, arrivals, n);
  }

  lemma PostIsNoted(s: State, t: State, user: UserId, row: QueuedRow, id: MessageId, now: Time, fate: Fate)
    requires row.request.Some? && Inv(s) && IsFresh(s, id) && IsPosted(s, t, user, row, id, now, fate)
    ensures SendsAlike(s, t)
    ensures t.dedup.Keys
            == if !fate.Lost? && fate.persists && SendMessage(s, user, row.conversation, row.request.value, id, now).Ok?
               then s.dedup.Keys + {(user, row.request.value.clientId)} else s.dedup.Keys
  {
    AlikeIsReflexive(s);
    if SendMessage(s, user, row.conversation, row.request.value, id, now).Ok? {
      SendFilesItsKey(s, user, row.conversation, row.request.value, id, now);
      SendingLeavesAlike(s, user, row.conversation, row.request.value, id, now);
    }
  }

  /** What becomes of one row in a pass: dropped if it is malformed, sent and removed if it arrives and the reply comes back,
      and otherwise left as it was. */
  predicate IsHandled(key: MessageId, row: QueuedRow, fate: Fate, arrives: bool, outbox: map<MessageId, QueuedRow>,
                      sent: seq<MessageId>)
  {
    && (key in sent <==> arrives && fate.Answered?)
    && (key in outbox <==> WellFormed(key, row) && !(arrives && fate.Answered?))
    && (key in outbox ==> outbox[key] == row)
  }

  /** The outbox and the sent keys after `n` rows of a pass. */
  ghost predicate IsPassed(rows: map<MessageId, QueuedRow>, ready: seq<MessageId>, fates: seq<Fate>, arrivals: seq<bool>, n: nat,
                           outbox: map<MessageId, QueuedRow>, sent: seq<MessageId>)
    requires n <= |ready| == |arrivals| <= |fates| && forall key :: key in ready ==> key in rows
  {
    && (forall k :: 0 <= k < n ==> IsHandled(ready[k], rows[ready[k]], fates[k], arrivals[k], outbox, sent))
    && (forall k :: n <= k < |ready| ==> ready[k] in outbox && ready[k] !in sent)
    && (forall key :: key in outbox ==> key in rows && outbox[key] == rows[key])
    && (forall key :: key in rows && key !in ready ==> key in outbox)
    && forall key :: key in sent ==> key in ready
  }

  lemma RowIsHandled(rows: map<MessageId, QueuedRow>, ready: seq<MessageId>, fates: seq<Fate>, arrivals: seq<bool>, n: nat,
                     outbox: map<MessageId, QueuedRow>, sent: seq<MessageId>, drops: bool, sends: bool)
    requires n < |ready| == |arrivals| <= |fates| && (forall key :: key in ready ==> key in rows)
    requires forall i, j :: 0 <= i < j < |ready| ==> ready[i] != ready[j]
    requires IsPassed(rows, ready, fates, arrivals, n, outbox, sent)
    requires sends <==> arrivals[n] && fates[n].Answered?
    requires drops <==> !WellFormed(ready[n], rows[ready[n]]) || sends
    ensures IsPassed(rows, ready, fates, arrivals, n + 1, if drops then outbox - {ready[n]} else outbox,
                     if sends then sent + [ready[n]] else sent)
  {
    var left := if drops then outbox - {ready[n]} else outbox;
    var done := if sends then sent + [ready[n]] else sent;
    forall k | 0 <= k < n + 1 ensures IsHandled(ready[k], rows[ready[k]], fates[k], arrivals[k], left, done) {
      if k < n {
        assert IsHandled(ready[k], rows[ready[k]], fates[k], arrivals[k], outbox, sent);
      }
    }
  }

  lemma PassIsComplete(start: State, s: State, user: UserId, rows: map<MessageId, QueuedRow>, ready: seq<MessageId>,
                       fates: seq<Fate>, arrivals: seq<bool>, outbox: map<MessageId, QueuedRow>, sent: seq<MessageId>)
    requires |ready| == |arrivals| <= |fates| && (forall key :: key in ready ==> key in rows)
    requires HasArrived(start, s, user, ready, arrivals, |ready|)
    requires IsPassed(rows, ready, fates, arrivals, |ready|, outbox, sent)
    requires forall k :: 0 <= k < |ready| && arrivals[k] ==> WellFormed(ready[k], rows[ready[k]])
    ensures IsKept(rows, outbox, s, user) && AllDelivered(s, user, sent) && forall key :: key in sent ==> key !in outbox
    ensures forall key :: key in ready && !WellFormed(key, rows[key]) ==> key !in outbox
  {
    forall k | 0 <= k < |ready|
      ensures IsHandled(ready[k], rows[ready[k]], fates[k], arrivals[k], outbox, sent)
      ensures arrivals[k] ==> IsDelivered(s, user, ready[k])
    {
      KnownIsDelivered(s, user, ready[k]);
      assert arrivals[k] ==> ready[k] in Known(s, user);
    }
  }

  /** Every well-formed row there was at the start is still there, or its message is in the server's logs. */
  ghost predicate IsKept(before: map<MessageId, QueuedRow>, after: map<MessageId, QueuedRow>, s: State, user: UserId) {
    forall key :: key in before && WellFormed(key, before[key]) ==>
      (key in after && after[key] == before[key]) || IsDelivered(s, user, key)
  }

  ghost predicate AllDelivered(s: State, user: UserId, keys: seq<MessageId>) {
    forall key :: key in keys ==> IsDelivered(s, user, key)
  }

  class Sender {
    const user: UserId
    var outbox: map<MessageId, QueuedRow>

    constructor (user: UserId)
      ensures this.user == user && outbox == map[]
    {
      this.user, outbox := user, map[];
    }

    /** One send, as far as the network lets it get; `answered` is whether a positive reply comes back. */
    method Post(store: Store, item: QueuedRow, id: MessageId, ids: seq<MessageId>, now: Time, fate: Fate)
      returns (answered: bool)
      requires Inv(store.Value()) && IsFresh(store.Value(), id) && AreFresh(store.Value(), ids) && id !in ids
      requires item.request.Some?
      modifies store
      ensures Inv(store.Value()) && AreFresh(store.Value(), ids) && DeliveredGrows(old(store.Value()), store.Value())
      ensures answered ==> fate.Answered? && IsDelivered(store.Value(), user, item.request.value.clientId)
      ensures IsPosted(old(store.Value()), store.Value(), user, item, id, now, fate)
      ensures answered <==> fate == Answered(true)
                            && SendMessage(old(store.Value()), user, item.conversation, item.request.value, id, now).Ok?
    {
      if fate.Lost? {
        return false;
      }
      ghost var start := store.Value();
      var request := item.request.value;
      var r, _ := store.Mutate(Send(user, item.conversation, request, id), now, fate.persists);
      if r.Ok? {
        StepKeeps(start, Send(user, item.conversation, request, id), now);
        SentIsRegistered(start, user, item.conversation, request, id, now);
        forall i | 0 <= i < |ids| ensures IsFresh(store.Value(), ids[i]) {
          SendLeavesFresh(start, user, item.conversation, request, id, now, ids[i]);
        }
      }
      return r.Ok? && fate.Answered?;
    }

    /** `flush_ready_outbox`: rows that do not parse are dropped, the others are sent and removed when acknowledged. */
    method Flush(store: Store, ready: seq<MessageId>, ids: seq<MessageId>, now: Time, fates: seq<Fate>)
      returns (sent: seq<MessageId>)
      requires Inv(store.Value()) && AreFresh(store.Value(), ids) && |ids| >= |ready| && |fates| >= |ready|
      requires forall key :: key in ready ==> key in outbox
      requires forall i, j :: 0 <= i < j < |ready| ==> ready[i] != ready[j]
      modifies this`outbox, store
      ensures Inv(store.Value()) && DeliveredGrows(old(store.Value()), store.Value())
      ensures IsKept(old(outbox), outbox, store.Value(), user)
      ensures forall key :: key in outbox ==> key in old(outbox) && outbox[key] == old(outbox)[key]
      ensures AllDelivered(store.Value(), user, sent) && forall key :: key in sent ==> key !in outbox
      ensures forall key :: key in ready && !WellFormed(key, old(outbox)[key]) ==> key !in outbox
      ensures var arrivals := Arrivals(old(store.Value()), user, old(outbox), ready, fates, now);
              && HasArrived(old(store.Value()), store.Value(), user, ready, arrivals, |ready|)
              && IsPassed(old(outbox), ready, fates, arrivals, |ready|, outbox, sent)
    {
      sent := [];
      ghost var start := store.Value();
      ghost var arrivals := Arrivals(start, user, outbox, ready, fates, now);
      AlikeIsReflexive(start);
      for i := 0 to |ready|
        invariant AreFresh(store.Value(), ids[i..])
        invariant HasArrived(start, store.Value(), user, ready, arrivals, i)
        invariant IsPassed(old(outbox), ready, fates, arrivals, i, outbox, sent)
      {
        assert ids[i..][0] == ids[i] && ids[i..][1..] == ids[i + 1..];
        SplitFresh(store.Value(), ids[i..]);
        var key := ready[i];
        var item := outbox[key];
        ghost var before := store.Value();
        if !WellFormed(key, item) {
          TallyGrows(Known(start, user), Known(before, user), Known(before, user), ready, arrivals, i);
          RowIsHandled(old(outbox), ready, fates, arrivals, i, outbox, sent, true, false);
          outbox := outbox - {key};
        } else {
          var answered := Post(store, item, ids[i], ids[i + 1..], now, fates[i]);
          PostIsTallied(start, before, store.Value(), user, item, ids[i], now, ready, fates, arrivals, i);
          RowIsHandled(old(outbox), ready, fates, arrivals, i, outbox, sent, answered, answered);
          if answered {
            outbox := outbox - {key};
            sent := sent + [key];
          }
        }
      }
      PassIsComplete(start, store.Value(), user, old(outbox), ready, fates, arrivals, outbox, sent);
    }
  }
}
