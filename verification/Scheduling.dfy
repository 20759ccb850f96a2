/** Scheduled messages: a deliverer that sends what is due and then removes it, and may crash in between. */
module Scheduling {
  import opened Domain
  import opened ServerState
  import opened ServerInvariants
  import opened ServerRuns
  import opened ServerTheorems
  import opened ServerKeys

  /** `due` and `sent` are the deliverer's memory: what is left of the snapshot it read, and the item it has just sent. `at` is
      the time of the whole pass. */
  datatype World = World(server: State, due: seq<Scheduled>, sent: Option<Scheduled>, at: Time)

  datatype Action =
    | Serve(call: Call)
    | Tick(now: Time)
    | SendDue(id: MessageId)
    | RemoveSent(persisted: bool)
    | Crash

  function DueAt(scheduled: seq<Scheduled>, now: Time): seq<Scheduled> {
    Retain(scheduled, (e: Scheduled) => e.dueAt <= now)
  }

  function SendOf(item: Scheduled, id: MessageId): Op {
    Send(item.actor, item.conversation, item.request, id)
  }

  /** A generated schedule id collides with no schedule, past or present, the deliverer still remembers. */
  ghost predicate Enabled(w: World, action: Action) {
    match action
    case Serve(call) =>
      && MintsEnough(call.op) && FreshIds(w.server, call.op) && !call.op.DropScheduled?
      && (call.op.Schedule? ==> (forall e :: e in w.due ==> e.id != call.op.item.id)
                                && (w.sent.Some? ==> w.sent.value.id != call.op.item.id))
    case Tick(_) => w.due == [] && w.sent.None?
    case SendDue(id) => w.due != [] && w.sent.None? && IsFresh(w.server, id)
    case RemoveSent(_) => w.sent.Some?
    case Crash => true
  }

  ghost function Next(w: World, action: Action): World
    requires Enabled(w, action)
  {
    match action
    case Serve(call) => w.(server := Step(w.server, call.op, call.now))
    case Tick(now) => w.(due := DueAt(w.server.scheduled, now), at := now)
    case SendDue(id) =>
      var item := w.due[0];
      var r := Apply(w.server, SendOf(item, id), w.at);
      if r.Ok? then w.(server := r.value.0, due := w.due[1..], sent := Some(item)) else w.(due := w.due[1..])
    case RemoveSent(persisted) =>
      w.(server := if persisted then Step(w.server, DropScheduled(w.sent.value.id), w.at) else w.server, sent := None)
    case Crash => w.(due := [], sent := None)
  }

  ghost predicate IsSent(s: State, item: Scheduled) {
    IsDelivered(s, item.actor, item.request.clientId)
  }

  /** What the deliverer remembers is what the store still has under that id, and what it has sent is in a log. */
  ghost predicate WorldInv(w: World) {
    && Inv(w.server)
    && (forall e, d :: e in w.server.scheduled && d in w.due && e.id == d.id ==> e == d)
    && (w.sent.Some? ==> IsSent(w.server, w.sent.value)
                         && forall e :: e in w.server.scheduled && e.id == w.sent.value.id ==> e == w.sent.value)
  }

  /** The two explicit ways to give up a schedule. */
  predicate GivesUp(action: Action, item: Scheduled) {
    action.Serve? && (action.call.op == CancelScheduled(item.actor, item.id)
                      || (action.call.op.DeleteAccount? && action.call.op.actor == item.actor))
  }

  /** The memory stays accurate over an operation that schedules under fresh ids only. */
  lemma ServeKeeps(w: World, op: Op, now: Time)
    requires WorldInv(w) && Enabled(w, Serve(Call(op, now)))
    ensures WorldInv(w.(server := Step(w.server, op, now)))
  {
    StepKeeps(w.server, op, now);
    var t := Step(w.server, op, now);
    forall e | e in t.scheduled ensures e in w.server.scheduled || op == Schedule(e) {
      StepSchedule(w.server, op, now, e);
    }
  }

  lemma SendDueKeeps(w: World, id: MessageId)
    requires WorldInv(w) && Enabled(w, SendDue(id))
    ensures WorldInv(Next(w, SendDue(id)))
    ensures Next(w, SendDue(id)).server == Step(w.server, SendOf(w.due[0], id), w.at)
  {
    var item := w.due[0];
    StepKeeps(w.server, SendOf(item, id), w.at);
    if Apply(w.server, SendOf(item, id), w.at).Ok? {
      SentIsRegistered(w.server, item.actor, item.conversation, item.request, id, w.at);
    }
    forall e | e in Next(w, SendDue(id)).server.scheduled ensures e in w.server.scheduled {
      StepSchedule(w.server, SendOf(item, id), w.at, e);
    }
    assert forall d :: d in w.due[1..] ==> d in w.due;
    assert item in w.due;
  }

  lemma TickKeeps(w: World, now: Time)
    requires WorldInv(w) && Enabled(w, Tick(now))
    ensures WorldInv(Next(w, Tick(now)))
  {
    RetainIsSublist(w.server.scheduled, (e: Scheduled) => e.dueAt <= now);
    var due := DueAt(w.server.scheduled, now);
    forall e, d | e in w.server.scheduled && d in due && e.id == d.id ensures e == d {
      assert d in w.server.scheduled;
    }
  }

  lemma RemoveSentKeeps(w: World, persisted: bool)
    requires WorldInv(w) && Enabled(w, RemoveSent(persisted))
    ensures WorldInv(Next(w, RemoveSent(persisted)))
  {
    var op := DropScheduled(w.sent.value.id);
    StepKeeps(w.server, op, w.at);
    forall e | e in Step(w.server, op, w.at).scheduled ensures e in w.server.scheduled {
      StepSchedule(w.server, op, w.at, e);
    }
  }

  /** One action: an entry leaves the schedule only if its message is in a log or it was given up. */
  lemma NextKeeps(w: World, action: Action, item: Scheduled)
    requires WorldInv(w) && Enabled(w, action)
    ensures var v := Next(w, action);
            && WorldInv(v)
            && (IsSent(w.server, item) ==> IsSent(v.server, item))
            && (item in w.server.scheduled ==> item in v.server.scheduled || IsSent(v.server, item) || GivesUp(action, item))
  {
    match action {
      case Serve(call) =>
        ServeKeeps(w, call.op, call.now);
        StepKeeps(w.server, call.op, call.now);
        StepSchedule(w.server, call.op, call.now, item);
      case Tick(now) => TickKeeps(w, now);
      case SendDue(id) =>
        SendDueKeeps(w, id);
        StepKeeps(w.server, SendOf(w.due[0], id), w.at);
        StepSchedule(w.server, SendOf(w.due[0], id), w.at, item);
      case RemoveSent(persisted) =>
        RemoveSentKeeps(w, persisted);
        StepKeeps(w.server, DropScheduled(w.sent.value.id), w.at);
        StepSchedule(w.server, DropScheduled(w.sent.value.id), w.at, item);
      case Crash =>
    }
  }

  ghost predicate Possible(w: World, actions: seq<Action>)
    decreases |actions|
  {
    actions == [] || (Enabled(w, actions[0]) && Possible(Next(w, actions[0]), actions[1..]))
  }

  ghost function Run(w: World, actions: seq<Action>): World
    requires Possible(w, actions)
    decreases |actions|
  {
    if actions == [] then w else Run(Next(w, actions[0]), actions[1..])
  }

  /** Over any run of ticks, crashes, failed removals and other requests, a schedule that was not given up is still
      pending or its message is in a log. */
  lemma {:induction false} ScheduledUntilDelivered(w: World, actions: seq<Action>, item: Scheduled)
    requires WorldInv(w) && Possible(w, actions)
    requires item in w.server.scheduled || IsSent(w.server, item)
    requires forall action :: action in actions ==> !GivesUp(action, item)
    ensures WorldInv(Run(w, actions))
    ensures item in Run(w, actions).server.scheduled || IsSent(Run(w, actions).server, item)
    decreases |actions|
  {
    if actions != [] {
      NextKeeps(w, actions[0], item);
      ScheduledUntilDelivered(Next(w, actions[0]), actions[1..], item);
    }
  }

  /** Delivering an item again after a crash, or after its author sent the same message directly, adds nothing. */
  lemma RedeliveryAddsNothing(w: World, id: MessageId)
    requires WorldInv(w) && Enabled(w, SendDue(id))
    requires IsSent(w.server, w.due[0]) && ExpiryInRange(w.due[0].request.expiresIn)
    ensures Next(w, SendDue(id)) == w.(due := w.due[1..], sent := Some(w.due[0]))
  {
    var item := w.due[0];
    KnownKeyIsAnswered(w.server, item.actor, item.conversation, item.request, id, w.at);
  }

  // ----- what is delivered is what was scheduled -----

  predicate SaysTheSame(e: Scheduled, item: Scheduled) {
    SameKey(e, item.actor, item.request.clientId) ==>
      e.conversation == item.conversation && e.request.content == item.request.content
  }

  /** The server knows the item's key for this item only, if at all, and so does the deliverer. A snapshot may still hold an
      entry with the same key that was cancelled since. */
  ghost predicate IsOnlyFor(w: World, item: Scheduled) {
    && IsFiledAs(w.server, item.actor, item.request.clientId, item.conversation, item.request.content)
    && forall e :: e in w.due ==> SaysTheSame(e, item)
  }

  /** This action does not use the item's key for anything else. */
  predicate RespectsKey(action: Action, item: Scheduled) {
    action.Serve? ==>
      FilesOnly(action.call.op, item.actor, item.request.clientId, item.conversation, item.request.content)
  }

  /** No other schedule can take the key of one that is pending or sent. */
  ghost predicate HoldsKey(s: State, item: Scheduled) {
    (item in s.scheduled || IsSent(s, item)) && forall e :: e in s.scheduled ==> SaysTheSame(e, item)
  }

  lemma StepHoldsKey(s: State, op: Op, now: Time, item: Scheduled)
    requires MintsEnough(op) && HoldsKey(s, item)
    requires item in Step(s, op, now).scheduled || IsSent(Step(s, op, now), item)
    ensures HoldsKey(Step(s, op, now), item)
  {
    forall e | e in Step(s, op, now).scheduled ensures SaysTheSame(e, item) {
      StepSchedule(s, op, now, e);
    }
  }

  lemma TickIsOnlyFor(w: World, now: Time, item: Scheduled)
    requires IsOnlyFor(w, item) && HoldsKey(w.server, item) && Enabled(w, Tick(now))
    ensures IsOnlyFor(Next(w, Tick(now)), item)
  {
    RetainIsSublist(w.server.scheduled, (e: Scheduled) => e.dueAt <= now);
  }

  lemma NextIsOnlyFor(w: World, action: Action, item: Scheduled)
    requires WorldInv(w) && Enabled(w, action) && HoldsKey(w.server, item) && !GivesUp(action, item)
    requires IsOnlyFor(w, item) && RespectsKey(action, item)
    ensures IsOnlyFor(Next(w, action), item) && HoldsKey(Next(w, action).server, item)
  {
    NextKeeps(w, action, item);
    match action {
      case Serve(call) =>
        StepHoldsKey(w.server, call.op, call.now, item);
        StepFiles(w.server, call.op, call.now, item.actor, item.request.clientId, item.conversation, item.request.content);
      case Tick(now) => TickIsOnlyFor(w, now, item);
      case SendDue(id) =>
        var op := SendOf(w.due[0], id);
        SendDueKeeps(w, id);
        StepHoldsKey(w.server, op, w.at, item);
        assert w.due[0] in w.due && SaysTheSame(w.due[0], item);
        StepFiles(w.server, op, w.at, item.actor, item.request.clientId, item.conversation, item.request.content);
      case RemoveSent(persisted) =>
        var op := DropScheduled(w.sent.value.id);
        if persisted {
          StepHoldsKey(w.server, op, w.at, item);
          StepFiles(w.server, op, w.at, item.actor, item.request.clientId, item.conversation, item.request.content);
        }
      case Crash =>
    }
  }

  lemma {:induction false} RunIsOnlyFor(w: World, actions: seq<Action>, item: Scheduled)
    requires WorldInv(w) && Possible(w, actions) && HoldsKey(w.server, item) && IsOnlyFor(w, item)
    requires forall action :: action in actions ==> !GivesUp(action, item) && RespectsKey(action, item)
    ensures IsOnlyFor(Run(w, actions), item)
    decreases |actions|
  {
    if actions != [] {
      NextKeeps(w, actions[0], item);
      NextIsOnlyFor(w, actions[0], item);
      RunIsOnlyFor(Next(w, actions[0]), actions[1..], item);
    }
  }

  lemma PendingHoldsKey(s: State, item: Scheduled)
    requires ScheduleInv(s.scheduled) && item in s.scheduled
    ensures HoldsKey(s, item)
  {
  }

  /** Pending schedules never share an id or a key, and one that has left the schedule without being given up is exactly
      one message of one log. If its key was used for nothing else, that message is in the conversation it was scheduled for
      and reads as it was scheduled, or as recalled. */
  lemma EachScheduleIsOneMessage(w: World, actions: seq<Action>, item: Scheduled) returns (c: ConversationId, i: nat)
    requires WorldInv(w) && Possible(w, actions) && item in w.server.scheduled
    requires forall action :: action in actions ==> !GivesUp(action, item)
    ensures var s := Run(w, actions).server;
            && (item in s.scheduled ==> forall e :: e in s.scheduled && e != item ==>
                  e.id != item.id && !SameKey(e, item.actor, item.request.clientId))
            && (item !in s.scheduled ==>
                  && IsCopy(s, item.actor, item.request.clientId, c, i)
                  && forall d, j: nat :: IsClientCopy(s, item.actor, item.request.clientId, d, j) ==> d == c && j == i)
    ensures item !in Run(w, actions).server.scheduled && IsOnlyFor(w, item)
            && (forall action :: action in actions ==> RespectsKey(action, item)) ==>
              && c == item.conversation
              && IsCopyOf(Run(w, actions).server, item.actor, item.request.clientId, c, i, item.request.content)
  {
    ScheduledUntilDelivered(w, actions, item);
    var s := Run(w, actions).server;
    c, i := 0, 0;
    if item !in s.scheduled {
      c, i := RegisteredExactlyOnce(s, item.actor, item.request.clientId);
      if IsOnlyFor(w, item) && forall action :: action in actions ==> RespectsKey(action, item) {
        PendingHoldsKey(w.server, item);
        RunIsOnlyFor(w, actions, item);
      }
    }
  }

  lemma ScheduledIsPending(w: World, item: Scheduled, now: Time)
    requires ScheduleMessage(w.server, item, now).Ok?
    ensures w.server.(scheduled := w.server.scheduled + [item]) == Step(w.server, Schedule(item), now)
    ensures now + 10 <= item.dueAt <= now + 30 * DAY && !IsSent(w.server, item)
    ensures forall e :: e in w.server.scheduled ==> !SameKey(e, item.actor, item.request.clientId)
  {
  }

  /** A schedule that was accepted, that is not given up, and whose key is used for nothing else is still pending or has
      become exactly one message, in its conversation, with its content or recalled. */
  lemma AcceptedMeansOneMessage(w: World, item: Scheduled, now: Time, actions: seq<Action>) returns (i: nat)
    requires WorldInv(w) && Enabled(w, Serve(Call(Schedule(item), now))) && ScheduleMessage(w.server, item, now).Ok?
    requires forall e :: e in w.due ==> SaysTheSame(e, item)
    requires Possible(Next(w, Serve(Call(Schedule(item), now))), actions)
    requires forall action :: action in actions ==> !GivesUp(action, item) && RespectsKey(action, item)
    ensures var s := Run(Next(w, Serve(Call(Schedule(item), now))), actions).server;
            item !in s.scheduled ==>
              && IsCopyOf(s, item.actor, item.request.clientId, item.conversation, i, item.request.content)
              && forall d, j: nat :: IsClientCopy(s, item.actor, item.request.clientId, d, j) ==> d == item.conversation && j == i
  {
    var v := Next(w, Serve(Call(Schedule(item), now)));
    ScheduledIsPending(w, item, now);
    ServeKeeps(w, Schedule(item), now);
    var c: ConversationId;
    c, i := EachScheduleIsOneMessage(v, actions, item);
  }

  // ----- nothing is sent early -----

  /** The item waits: nothing the deliverer remembers and nothing else in the schedule has its key. */
  ghost predicate IsWaiting(w: World, item: Scheduled) {
    && item in w.server.scheduled && !IsSent(w.server, item)
    && (forall e :: e in w.due ==> !SameKey(e, item.actor, item.request.clientId))
  }

  /** This action happens before the item is due, and uses its key for nothing else. */
  predicate IsEarly(action: Action, item: Scheduled) {
    match action
    case Tick(now) => now < item.dueAt
    case Serve(call) =>
      FilesNoSuchKey(call.op, item.actor, item.request.clientId)
    case _ => true
  }

  lemma NextWaits(w: World, action: Action, item: Scheduled)
    requires WorldInv(w) && Enabled(w, action) && IsWaiting(w, item) && !GivesUp(action, item) && IsEarly(action, item)
    ensures IsWaiting(Next(w, action), item)
  {
    NextKeeps(w, action, item);
    match action {
      case Serve(call) => StepFilesNothing(w.server, call.op, call.now, item.actor, item.request.clientId);
      case Tick(now) =>
        RetainIsSublist(w.server.scheduled, (e: Scheduled) => e.dueAt <= now);
      case SendDue(id) =>
        assert w.due[0] in w.due && forall e :: e in w.due[1..] ==> e in w.due;
        StepFilesNothing(w.server, SendOf(w.due[0], id), w.at, item.actor, item.request.clientId);
      case RemoveSent(persisted) =>
        StepFilesNothing(w.server, DropScheduled(w.sent.value.id), w.at, item.actor, item.request.clientId);
      case Crash =>
    }
  }

  /** However often the deliverer runs before an item is due, and whatever else is sent, the item stays in the schedule and
      its message in no log. */
  lemma {:induction false} NothingIsSentEarly(w: World, actions: seq<Action>, item: Scheduled)
    requires WorldInv(w) && Possible(w, actions) && IsWaiting(w, item)
    requires forall action :: action in actions ==> !GivesUp(action, item) && IsEarly(action, item)
    ensures IsWaiting(Run(w, actions), item)
    decreases |actions|
  {
    if actions != [] {
      NextKeeps(w, actions[0], item);
      NextWaits(w, actions[0], item);
      NothingIsSentEarly(Next(w, actions[0]), actions[1..], item);
    }
  }
}
