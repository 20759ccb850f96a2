/** Cancelling a scheduled message while the deliverer may already have read it. */
module Cancelling {
  import opened Domain
  import opened ServerState
  import opened ServerInvariants
  import opened ServerRuns
  import opened ServerTheorems
  import opened ServerKeys
  import opened Sending
  import opened Scheduling

  // ----- in time -----

  /** Neither a request nor the schedule nor the deliverer's snapshot has the item's key. */
  ghost predicate IsForgotten(w: World, item: Scheduled) {
    && !IsSent(w.server, item)
    && (forall e :: e in w.server.scheduled ==> !SameKey(e, item.actor, item.request.clientId))
    && (forall e :: e in w.due ==> !SameKey(e, item.actor, item.request.clientId))
  }

  /** This action brings the item's key in again. */
  predicate BringsBack(action: Action, item: Scheduled) {
    action.Serve? && match action.call.op
      case Schedule(e) => SameKey(e, item.actor, item.request.clientId)
      case op => !FilesNoSuchKey(op, item.actor, item.request.clientId)
  }

  lemma StepForgets(s: State, op: Op, now: Time, item: Scheduled)
    requires Inv(s) && MintsEnough(op) && FreshIds(s, op) && !IsSent(s, item)
    requires forall e :: e in s.scheduled ==> !SameKey(e, item.actor, item.request.clientId)
    requires !BringsBack(Serve(Call(op, now)), item)
    ensures var t := Step(s, op, now);
            !IsSent(t, item) && forall e :: e in t.scheduled ==> !SameKey(e, item.actor, item.request.clientId)
  {
    forall e | e in Step(s, op, now).scheduled ensures !SameKey(e, item.actor, item.request.clientId) {
      StepSchedule(s, op, now, e);
    }
    StepFilesNothing(s, op, now, item.actor, item.request.clientId);
  }

  lemma NextForgets(w: World, action: Action, item: Scheduled)
    requires WorldInv(w) && Enabled(w, action) && IsForgotten(w, item) && !BringsBack(action, item)
    ensures IsForgotten(Next(w, action), item)
  {
    match action {
      case Serve(call) => StepForgets(w.server, call.op, call.now, item);
      case Tick(now) => RetainIsSublist(w.server.scheduled, (e: Scheduled) => e.dueAt <= now);
      case SendDue(id) =>
        assert w.due[0] in w.due && forall e :: e in w.due[1..] ==> e in w.due;
        StepForgets(w.server, SendOf(w.due[0], id), w.at, item);
      case RemoveSent(persisted) => StepForgets(w.server, DropScheduled(w.sent.value.id), w.at, item);
      case Crash =>
    }
  }

  /** A schedule cancelled before the deliverer has read it is never sent: its key stays unknown to the server for as long as
      no request brings it back. */
  lemma {:induction false} CancelledInTimeIsNeverSent(w: World, actions: seq<Action>, item: Scheduled)
    requires WorldInv(w) && Scheduling.Possible(w, actions) && IsForgotten(w, item)
    requires forall action :: action in actions ==> !BringsBack(action, item)
    ensures !IsSent(Scheduling.Run(w, actions).server, item)
    decreases |actions|
  {
    if actions != [] {
      Scheduling.NextKeeps(w, actions[0], item);
      NextForgets(w, actions[0], item);
      CancelledInTimeIsNeverSent(Next(w, actions[0]), actions[1..], item);
    }
  }

  lemma {:induction false} RetainDrops(xs: seq<Scheduled>, keep: Scheduled -> bool, x: Scheduled)
    requires x in xs && !keep(x)
    ensures |Retain(xs, keep)| < |xs|
  {
    var front := xs[..|xs| - 1];
    RetainIsSublist(front, keep);
    if keep(xs[|xs| - 1]) {
      assert x in front;
      RetainDrops(front, keep, x);
    }
  }

  lemma CancelIsExact(s: State, item: Scheduled)
    requires ScheduleInv(s.scheduled) && item in s.scheduled
    ensures var r := CancelSchedule(s, item.actor, item.id);
            && r.Ok? && r.value.0 == s.(scheduled := r.value.0.scheduled)
            && forall e :: e in r.value.0.scheduled <==> e in s.scheduled && e != item
  {
    var keep := (e: Scheduled) => !(e.id == item.id && e.actor == item.actor);
    RetainIsSublist(s.scheduled, keep);
    RetainDrops(s.scheduled, keep, item);
  }

  function Cancel(item: Scheduled, now: Time): Action {
    Serve(Call(CancelScheduled(item.actor, item.id), now))
  }

  /** Cancelling a pending schedule that the deliverer's snapshot does not hold is in time. */
  lemma CancelForgets(w: World, item: Scheduled, now: Time)
    requires WorldInv(w) && item in w.server.scheduled && !IsSent(w.server, item)
    requires forall e :: e in w.due ==> !SameKey(e, item.actor, item.request.clientId)
    ensures CancelSchedule(w.server, item.actor, item.id).Ok? && IsForgotten(Next(w, Cancel(item, now)), item)
  {
    CancelIsExact(w.server, item);
  }

  lemma SendingDueSends(w: World, id: MessageId)
    requires Inv(w.server) && Enabled(w, SendDue(id))
    requires SendMessage(w.server, w.due[0].actor, w.due[0].conversation, w.due[0].request, id, w.at).Ok?
    ensures IsSent(Next(w, SendDue(id)).server, w.due[0])
  {
    SentIsRegistered(w.server, w.due[0].actor, w.due[0].conversation, w.due[0].request, id, w.at);
  }

  lemma CancelOnlyUnschedules(w: World, item: Scheduled, now: Time)
    requires ScheduleInv(w.server.scheduled) && item in w.server.scheduled
    ensures CancelSchedule(w.server, item.actor, item.id).Ok?
    ensures var v := Next(w, Cancel(item, now));
            item !in v.server.scheduled && v == w.(server := w.server.(scheduled := v.server.scheduled))
  {
    CancelIsExact(w.server, item);
  }

  // ----- too late -----

  /** The server accepts this entry's message, under a fresh id, at the time of the pass. */
  ghost predicate CanBeSent(s: State, e: Scheduled, at: Time) {
    Accepts(s, e.actor, e.conversation, e.request, at)
  }

  predicate HasKeyOf(e: Scheduled, item: Scheduled) {
    SameKey(e, item.actor, item.request.clientId)
  }

  /** The guard of a cancellation: the deliverer has read an entry with this key, and the server would accept it. */
  ghost predicate IsUnderWay(w: World, item: Scheduled) {
    exists e :: e in w.due && HasKeyOf(e, item) && CanBeSent(w.server, e, w.at)
  }

  /** The deliverer goes on, and no request is served. */
  predicate OnlyDelivers(actions: seq<Action>) {
    forall action :: action in actions ==> !action.Serve?
  }

  ghost predicate SendsIt(w: World, actions: seq<Action>, item: Scheduled) {
    OnlyDelivers(actions) && Scheduling.Possible(w, actions) && IsSent(Scheduling.Run(w, actions).server, item)
  }

  /** Left to itself, the deliverer can come to send the item. */
  ghost predicate CanStillSend(w: World, item: Scheduled) {
    exists actions :: SendsIt(w, actions, item)
  }

  // ----- what is sent was under way -----

  /** Since the item was cancelled in `w`, the deliverer has gone on to `v` without sending it. */
  ghost predicate HasGoneOn(w: World, v: World, item: Scheduled) {
    && WorldInv(v) && !IsSent(v.server, item) && SendsAlike(w.server, v.server)
    && (forall e :: e in v.server.scheduled ==> !HasKeyOf(e, item))
    && forall e :: e in v.due && HasKeyOf(e, item) ==> e in w.due && v.at == w.at
  }

  /** The next entry of the snapshot would send the item. */
  ghost predicate IsNext(v: World, item: Scheduled, id: MessageId) {
    && v.due != [] && HasKeyOf(v.due[0], item)
    && SendMessage(v.server, v.due[0].actor, v.due[0].conversation, v.due[0].request, id, v.at).Ok?
  }

  /** The deliverer goes past any other entry. */
  lemma OtherEntryGoesOn(w: World, v: World, item: Scheduled, id: MessageId)
    requires HasGoneOn(w, v, item) && Enabled(v, SendDue(id)) && !IsNext(v, item, id)
    ensures var x := Next(v, SendDue(id)); HasGoneOn(w, x, item) && x.due == v.due[1..]
  {
    var e, x := v.due[0], Next(v, SendDue(id));
    assert e in v.due && forall d :: d in v.due[1..] ==> d in v.due;
    SendDueKeeps(v, id);
    if !HasKeyOf(e, item) {
      StepForgets(v.server, SendOf(e, id), v.at, item);
      SendingLeavesAlike(v.server, e.actor, e.conversation, e.request, id, v.at);
      if x.sent.Some? {
        AlikeJoins(w.server, v.server, x.server);
      }
    }
  }

  lemma NextWasUnderWay(w: World, v: World, item: Scheduled, id: MessageId)
    requires HasGoneOn(w, v, item) && !IsSent(w.server, item) && IsNext(v, item, id)
    ensures IsUnderWay(w, item)
  {
    var e := v.due[0];
    assert e in v.due;
    var other := FreshId(w.server);
    AlikeIsSymmetric(w.server, v.server);
    AlikeSends(v.server, w.server, e.actor, e.conversation, e.request, id, other, w.at);
    assert CanBeSent(w.server, e, w.at);
  }

  lemma SendDueGoesOn(w: World, v: World, item: Scheduled, id: MessageId)
    requires HasGoneOn(w, v, item) && !IsSent(w.server, item) && Enabled(v, SendDue(id))
    ensures HasGoneOn(w, Next(v, SendDue(id)), item) || IsUnderWay(w, item)
  {
    if IsNext(v, item, id) {
      NextWasUnderWay(w, v, item, id);
    } else {
      OtherEntryGoesOn(w, v, item, id);
    }
  }

  lemma TickGoesOn(w: World, v: World, item: Scheduled, now: Time)
    requires HasGoneOn(w, v, item) && Enabled(v, Tick(now))
    ensures HasGoneOn(w, Next(v, Tick(now)), item)
  {
    TickKeeps(v, now);
    RetainIsSublist(v.server.scheduled, (e: Scheduled) => e.dueAt <= now);
  }

  lemma RemoveSentGoesOn(w: World, v: World, item: Scheduled, persisted: bool)
    requires HasGoneOn(w, v, item) && Enabled(v, RemoveSent(persisted))
    ensures HasGoneOn(w, Next(v, RemoveSent(persisted)), item)
  {
    RemoveSentKeeps(v, persisted);
    RemovalOnlyUnschedules(v, persisted);
    StepForgets(v.server, DropScheduled(v.sent.value.id), v.at, item);
  }

  lemma RemovalOnlyUnschedules(v: World, persisted: bool)
    requires Enabled(v, RemoveSent(persisted))
    ensures var x := Next(v, RemoveSent(persisted));
            x == v.(server := v.server.(scheduled := x.server.scheduled), sent := None)
  {
  }

  lemma {:induction false} OnlyWhatIsUnderWayIsSent(w: World, v: World, actions: seq<Action>, item: Scheduled)
    requires HasGoneOn(w, v, item) && !IsSent(w.server, item) && SendsIt(v, actions, item)
    ensures IsUnderWay(w, item)
    decreases |actions|
  {
    if actions != [] {
      var x := Next(v, actions[0]);
      assert actions[0] in actions && forall action :: action in actions[1..] ==> action in actions;
      match actions[0] {
        case Tick(now) => TickGoesOn(w, v, item, now);
        case SendDue(id) => SendDueGoesOn(w, v, item, id);
        case RemoveSent(persisted) => RemoveSentGoesOn(w, v, item, persisted);
        case Crash =>
      }
      if !IsUnderWay(w, item) {
        OnlyWhatIsUnderWayIsSent(w, x, actions[1..], item);
      }
    }
  }

  // ----- what is under way can be sent -----

  lemma SendsItAfter(v: World, action: Action, actions: seq<Action>, item: Scheduled)
    requires Enabled(v, action) && !action.Serve? && SendsIt(Next(v, action), actions, item)
    ensures SendsIt(v, [action] + actions, item)
  {
    RunsOn(v, action, actions);
  }

  lemma AlreadySent(v: World, item: Scheduled)
    requires IsSent(v.server, item)
    ensures SendsIt(v, [], item)
  {
  }

  /** Entry k of what is left of the snapshot is sent after the ones before it, whatever becomes of those. */
  lemma {:induction false} ReachesEntry(w: World, v: World, item: Scheduled, k: nat) returns (actions: seq<Action>)
    requires HasGoneOn(w, v, item) && !IsSent(w.server, item) && v.sent.None?
    requires k < |v.due| && HasKeyOf(v.due[k], item) && CanBeSent(w.server, v.due[k], w.at)
    ensures SendsIt(v, actions, item)
    decreases k, 0
  {
    var id := FreshId(v.server);
    var x := Next(v, SendDue(id));
    if IsNext(v, item, id) {
      SendingDueSends(v, id);
      AlreadySent(x, item);
      actions := [];
    } else {
      assert k > 0 by {
        if k == 0 {
          UnderWayIsNext(w, v, item, id);
        }
      }
      OtherEntryGoesOn(w, v, item, id);
      actions := ReachesFurther(w, x, item, k - 1);
    }
    SendsItAfter(v, SendDue(id), actions, item);
    actions := [SendDue(id)] + actions;
  }

  /** The same while the entry before may still have to be removed. */
  lemma {:induction false} ReachesFurther(w: World, v: World, item: Scheduled, k: nat) returns (actions: seq<Action>)
    requires HasGoneOn(w, v, item) && !IsSent(w.server, item)
    requires k < |v.due| && HasKeyOf(v.due[k], item) && CanBeSent(w.server, v.due[k], w.at)
    ensures SendsIt(v, actions, item)
    decreases k, 1
  {
    if v.sent.Some? {
      RemoveSentGoesOn(w, v, item, true);
      RemovalOnlyUnschedules(v, true);
      actions := ReachesEntry(w, Next(v, RemoveSent(true)), item, k);
      SendsItAfter(v, RemoveSent(true), actions, item);
      actions := [RemoveSent(true)] + actions;
    } else {
      actions := ReachesEntry(w, v, item, k);
    }
  }

  lemma UnderWayIsNext(w: World, v: World, item: Scheduled, id: MessageId)
    requires HasGoneOn(w, v, item) && !IsSent(w.server, item)
    requires v.due != [] && HasKeyOf(v.due[0], item) && CanBeSent(w.server, v.due[0], w.at)
    ensures IsNext(v, item, id)
  {
    var e := v.due[0];
    assert e in v.due;
    var known: MessageId :|
      IsFresh(w.server, known) && SendMessage(w.server, e.actor, e.conversation, e.request, known, w.at).Ok?;
    AlikeSends(w.server, v.server, e.actor, e.conversation, e.request, known, id, w.at);
  }

  lemma UnderWayCanBeSent(w: World, v: World, item: Scheduled)
    requires HasGoneOn(w, v, item) && !IsSent(w.server, item) && v.due == w.due && IsUnderWay(w, item)
    ensures CanStillSend(v, item)
  {
    var e :| e in w.due && HasKeyOf(e, item) && CanBeSent(w.server, e, w.at);
    var k: nat :| k < |v.due| && v.due[k] == e;
    var actions := ReachesFurther(w, v, item, k);
  }

  lemma SentWasUnderWay(w: World, v: World, item: Scheduled)
    requires HasGoneOn(w, v, item) && !IsSent(w.server, item) && CanStillSend(v, item)
    ensures IsUnderWay(w, item)
  {
    var actions :| SendsIt(v, actions, item);
    OnlyWhatIsUnderWayIsSent(w, v, actions, item);
  }

  /** A cancellation that succeeds is still too late if and only if the deliverer has read an entry with that key which the
      server would accept. It may be anywhere in what is left of the snapshot, and the one before it may be half done. */
  lemma CancelIsTooLateExactly(w: World, item: Scheduled, now: Time)
    requires WorldInv(w) && item in w.server.scheduled && !IsSent(w.server, item)
    ensures CancelSchedule(w.server, item.actor, item.id).Ok?
    ensures item !in Next(w, Cancel(item, now)).server.scheduled
    ensures CanStillSend(Next(w, Cancel(item, now)), item) <==> IsUnderWay(w, item)
  {
    var v := Next(w, Cancel(item, now));
    CancelGoesOn(w, item, now);
    if CanStillSend(v, item) {
      SentWasUnderWay(w, v, item);
    }
    if IsUnderWay(w, item) {
      UnderWayCanBeSent(w, v, item);
    }
  }

  lemma CancelGoesOn(w: World, item: Scheduled, now: Time)
    requires WorldInv(w) && item in w.server.scheduled && !IsSent(w.server, item)
    ensures CancelSchedule(w.server, item.actor, item.id).Ok?
    ensures var v := Next(w, Cancel(item, now));
            HasGoneOn(w, v, item) && item !in v.server.scheduled && v == w.(server := v.server)
  {
    CancelOnlyUnschedules(w, item, now);
    CancelIsExact(w.server, item);
    ServeKeeps(w, CancelScheduled(item.actor, item.id), now);
  }

  // ----- a run that cancels too late -----

  const GREETING := SendRequest(7, Text("hello"), {}, false, None)
  const PENDING := Scheduled(1, 1, 9, GREETING, 20)

  /** Two friends with a conversation. */
  ghost const FRIENDS := Step(EMPTY, AcceptFriend(1, 2, 9), 0)

  lemma FriendsCanTalk()
    ensures 9 in FRIENDS.conversations && FRIENDS.conversations[9].kind.Direct?
    ensures FRIENDS.conversations[9].members == map[1 := Participant(Member, None, 0), 2 := Participant(Member, None, 0)]
    ensures FRIENDS.friends == {(1, 2)} && FRIENDS.blocks == {} && FRIENDS.scheduled == [] && FRIENDS.dedup == map[]
    ensures FRIENDS.logs == map[] && FRIENDS.receipts == map[]
  {
  }

  lemma GreetingIsValid()
    ensures ContentIsValid(GREETING.content)
  {
    var text := "hello";
    assert text[0] == 'h' && text[0] in text && 'h' !in " \t\r\n";
    assert GREETING.content == Text(text);
  }

  lemma GreetingIsScheduled()
    ensures ScheduleMessage(FRIENDS, PENDING, 0) == Ok((FRIENDS.(scheduled := [PENDING]), Done))
  {
    FriendsCanTalk();
    GreetingIsValid();
    assert FRIENDS.scheduled + [PENDING] == [PENDING];
  }

  lemma GreetingIsSent()
    ensures SendMessage(FRIENDS, 1, 9, GREETING, 5, 20).Ok?
  {
    FriendsCanTalk();
    GreetingIsValid();
    assert IsFirstPeer(FRIENDS.conversations[9].members, 1, 2);
    assert (1, 2) in FRIENDS.friends && Involves((1, 2), 1) && Involves((1, 2), 2);
  }

  lemma RunsOn(w: World, action: Action, rest: seq<Action>)
    requires Enabled(w, action) && Scheduling.Possible(Next(w, action), rest)
    ensures Scheduling.Possible(w, [action] + rest) && Scheduling.Run(w, [action] + rest) == Scheduling.Run(Next(w, action), rest)
  {
    assert ([action] + rest)[1..] == rest;
  }

  const BEFRIEND := Serve(Call(AcceptFriend(1, 2, 9), 0))
  const SCHEDULE := Serve(Call(Schedule(PENDING), 0))
  const TICK := Tick(20)
  const CANCEL := Cancel(PENDING, 20)
  const SEND := SendDue(5)

  ghost const START := World(EMPTY, [], None, 0)
  ghost const BEFRIENDED := World(FRIENDS, [], None, 0)
  ghost const WAITING := World(FRIENDS.(scheduled := [PENDING]), [], None, 0)
  ghost const READ := World(FRIENDS.(scheduled := [PENDING]), [PENDING], None, 20)

  ghost predicate IsStep(w: World, action: Action, v: World) {
    WorldInv(w) && Enabled(w, action) && Next(w, action) == v
  }

  lemma Befriending()
    ensures IsStep(START, BEFRIEND, BEFRIENDED)
  {
    EmptyStoreIsGood();
  }

  lemma StepHolds(w: World, action: Action, v: World)
    requires IsStep(w, action, v)
    ensures WorldInv(v)
  {
    Scheduling.NextKeeps(w, action, PENDING);
  }

  lemma ScheduleStep(w: World, item: Scheduled, now: Time, t: State)
    requires WorldInv(w) && w.due == [] && w.sent.None? && forall e :: e in w.server.scheduled ==> e.id != item.id
    requires ScheduleMessage(w.server, item, now) == Ok((t, Done))
    ensures IsStep(w, Serve(Call(Schedule(item), now)), w.(server := t))
  {
  }

  lemma SchedulingIt()
    requires WorldInv(BEFRIENDED)
    ensures IsStep(BEFRIENDED, SCHEDULE, WAITING)
  {
    assert FRIENDS.scheduled == [] by {
      FriendsCanTalk();
    }
    GreetingIsScheduled();
    ScheduleStep(BEFRIENDED, PENDING, 0, FRIENDS.(scheduled := [PENDING]));
  }

  lemma ReadingIt()
    requires WorldInv(WAITING)
    ensures IsStep(WAITING, TICK, READ)
  {
    assert [PENDING][..0] == [] && DueAt([], 20) == [];
    assert DueAt([PENDING], 20) == [PENDING];
  }

  lemma GreetingCanBeSent()
    ensures Enabled(READ, SEND) && !IsSent(READ.server, PENDING)
    ensures SendMessage(READ.server, PENDING.actor, PENDING.conversation, PENDING.request, 5, READ.at).Ok?
  {
    FriendsCanTalk();
    GreetingIsSent();
    AlikeSends(FRIENDS, READ.server, PENDING.actor, PENDING.conversation, PENDING.request, 5, 5, 20);
  }

  lemma CancellingIt(w: World, item: Scheduled, cancel: Action, send: Action, now: Time, id: MessageId)
    requires WorldInv(w) && item in w.server.scheduled && !IsSent(w.server, item) && w.due != [] && w.due[0] == item
    requires cancel == Cancel(item, now) && send == SendDue(id)
    requires Enabled(w, send) && SendMessage(w.server, item.actor, item.conversation, item.request, id, w.at).Ok?
    ensures Enabled(w, cancel) && Enabled(Next(w, cancel), send) && IsSent(Next(Next(w, cancel), send).server, item)
  {
    CancelGoesOn(w, item, now);
    CancelOnlyUnschedules(w, item, now);
    AlikeSends(w.server, Next(w, cancel).server, item.actor, item.conversation, item.request, id, id, w.at);
    SendingDueSends(Next(w, cancel), id);
  }

  lemma RunsTwo(w: World, first: Action, second: Action)
    requires Enabled(w, first) && Enabled(Next(w, first), second)
    ensures Scheduling.Possible(w, [first, second]) && Scheduling.Run(w, [first, second]) == Next(Next(w, first), second)
  {
    var v := Next(w, first);
    RunsOn(v, second, []);
    RunsOn(w, first, [second] + []);
    assert [second] + [] == [second] && [first] + [second] == [first, second];
  }

  lemma RunsAfter(w: World, first: Action, v: World, second: Action, x: World, third: Action, y: World, rest: seq<Action>)
    requires IsStep(w, first, v) && IsStep(v, second, x) && IsStep(x, third, y) && Scheduling.Possible(y, rest)
    ensures Scheduling.Possible(w, [first, second, third] + rest)
    ensures Scheduling.Run(w, [first, second, third] + rest) == Scheduling.Run(y, rest)
  {
    RunsOn(x, third, rest);
    RunsOn(v, second, [third] + rest);
    RunsOn(w, first, [second] + ([third] + rest));
    assert [first] + ([second] + ([third] + rest)) == [first, second, third] + rest;
  }

  /** A greeting is scheduled, falls due and is read by the deliverer; then it is cancelled, and yet it is sent. */
  lemma CancelledCanStillBeSent()
    ensures var actions := [BEFRIEND, SCHEDULE, TICK] + [CANCEL, SEND];
            Scheduling.Possible(START, actions) && IsSent(Scheduling.Run(START, actions).server, PENDING)
  {
    Befriending();
    StepHolds(START, BEFRIEND, BEFRIENDED);
    SchedulingIt();
    StepHolds(BEFRIENDED, SCHEDULE, WAITING);
    ReadingIt();
    StepHolds(WAITING, TICK, READ);
    GreetingCanBeSent();
    CancellingIt(READ, PENDING, CANCEL, SEND, 20, 5);
    RunsTwo(READ, CANCEL, SEND);
    RunsAfter(START, BEFRIEND, BEFRIENDED, SCHEDULE, WAITING, TICK, READ, [CANCEL, SEND]);
  }
}
