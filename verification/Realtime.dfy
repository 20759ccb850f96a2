/** The join of catch-up and live stream: a server that subscribes a connection before it reads the latest cursor,
    and a client that pages up to there and then follows the stream, through any number of reconnections. */
module Realtime {
  import opened Domain
  import opened ServerState
  import opened ServerInvariants
  import opened SyncLog

  datatype Frame = Welcome(latest: nat) | Live(event: Event)

  /** The server's end and the wire: the events below `from` were broadcast before the subscription, those below `next`
      have been forwarded, and those below `seen` have been taken off the wire. */
  datatype Connection = Connection(from: nat, next: nat, seen: nat, greeted: bool, wire: seq<Frame>)

  datatype Phase = Offline | Awaiting | CatchingUp(local: nat) | Online

  /** `session` is what the client has emitted on this connection, and `emitted` what it has ever emitted. */
  datatype World = World(
    log: seq<UserEvent>,
    broadcast: nat,
    connection: Connection,
    phase: Phase,
    cursor: nat,
    emitted: seq<Event>,
    session: seq<Event>,
    interrupted: bool)

  datatype Action =
    | Append(recipients: set<UserId>, body: EventBody, now: Time)
    | Broadcast
    | Connect
    | Greet
    | Forward
    | Receive
    | FetchPage
    | Disconnect

  ghost predicate Enabled(w: World, action: Action) {
    match action
    case Append(_, _, _) => true
    case Broadcast => w.broadcast < |w.log|
    case Connect => w.phase.Offline?
    case Greet => !w.phase.Offline? && !w.connection.greeted
    case Forward => !w.phase.Offline? && w.connection.greeted && w.connection.next < w.broadcast && w.broadcast <= |w.log|
    case Receive => (w.phase.Awaiting? || w.phase.Online?) && w.connection.wire != []
    case FetchPage => w.phase.CatchingUp?
    case Disconnect => !w.phase.Offline?
  }

  function Append1(log: seq<UserEvent>, recipients: set<UserId>, body: EventBody, now: Time): seq<UserEvent> {
    log + [UserEvent(recipients, Event(|log| + 1, body, now))]
  }

  /** `handle_server_frame`: a welcome starts a catch-up if the server is ahead; an event is emitted if it is new. */
  function Handle(w: World, frame: Frame): World {
    match frame
    case Welcome(latest) => w.(phase := if latest > w.cursor then CatchingUp(w.cursor) else Online)
    case Live(event) =>
      if event.cursor > w.cursor
      then w.(cursor := event.cursor, emitted := w.emitted + [event], session := w.session + [event])
      else w
  }

  function AfterFrame(c: Connection): Connection
    requires c.wire != []
  {
    c.(wire := c.wire[1..], seen := if c.wire[0].Live? then c.wire[0].event.cursor else c.seen)
  }

  function Next(w: World, user: UserId, action: Action): World
    requires Enabled(w, action)
  {
    var c := w.connection;
    match action
    case Append(recipients, body, now) => w.(log := Append1(w.log, recipients, body, now))
    case Broadcast => w.(broadcast := w.broadcast + 1)
    case Connect => w.(connection := Connection(w.broadcast, w.broadcast, w.broadcast, false, []), phase := Awaiting, session := [])
    case Greet => w.(connection := c.(greeted := true, wire := [Welcome(|w.log|)]))
    case Forward =>
      var entry := w.log[c.next];
      w.(connection := c.(next := c.next + 1, wire := if user in entry.recipients then c.wire + [Live(entry.event)] else c.wire))
    case Receive => Handle(w.(connection := AfterFrame(c)), c.wire[0])
    case FetchPage =>
      var local := w.phase.local;
      var page := Sync(w.log, user, local, CATCH_UP_PAGE);
      var reached := Max(local, page.next);
      w.(emitted := w.emitted + page.events, session := w.session + page.events,
         phase := if page.hasMore then CatchingUp(reached) else Online,
         cursor := if page.hasMore then w.cursor else reached)
    case Disconnect =>
      w.(phase := Offline, interrupted := w.interrupted || (w.phase.CatchingUp? && w.phase.local > w.cursor))
  }

  // ----- the invariant -----

  /** How far the client has emitted everything: the local cursor of a catch-up under way, or the kept cursor. */
  function Reached(w: World): nat {
    if w.phase.CatchingUp? then w.phase.local else w.cursor
  }

  function LiveFrames(events: seq<Event>): (frames: seq<Frame>)
    ensures |frames| == |events| && forall i :: 0 <= i < |events| ==> frames[i] == Live(events[i])
  {
    seq(|events|, i requires 0 <= i < |events| => Live(events[i]))
  }

  /** The wire holds the welcome, if it has not been handled, and then these frames. */
  predicate IsWire(wire: seq<Frame>, welcome: bool, frames: seq<Frame>, from: nat, top: nat) {
    if welcome
    then wire != [] && wire[0].Welcome? && from <= wire[0].latest <= top && wire[1..] == frames
    else wire == frames
  }

  /** The shape of the connection when these frames are on their way. */
  ghost predicate WireHolds(w: World, frames: seq<Frame>) {
    var c := w.connection;
    && c.from <= c.seen <= c.next <= w.broadcast <= |w.log|
    && (w.phase.Awaiting? ==> c.seen == c.from)
    && if c.greeted then IsWire(c.wire, w.phase.Awaiting?, frames, c.from, |w.log|)
       else w.phase.Awaiting? && c.wire == [] && c.seen == c.next
  }

  /** Behind the welcome come exactly the user's forwarded events not yet seen, in order. */
  ghost predicate WireInv(w: World, user: UserId) {
    w.connection.next <= |w.log| && WireHolds(w, LiveFrames(Addressed(w.log[..w.connection.next], user, w.connection.seen)))
  }

  /** Nothing for the user lies between the kept cursor and the part of the stream still on its way. */
  ghost predicate JoinInv(w: World, user: UserId) {
    match w.phase
    case Online => forall i: nat :: i < w.connection.seen && i < |w.log| ==> !IsFor(w.log[i], user, w.cursor)
    case CatchingUp(local) =>
      && w.connection.seen == w.connection.from && w.cursor <= local <= |w.log|
      && (local > w.cursor ==> IsFor(w.log[local - 1], user, w.cursor))
    case Awaiting => true
    case Offline => true
  }

  ghost predicate IsCovered(w: World, user: UserId, start: nat) {
    forall i: nat :: i < Reached(w) && i < |w.log| && IsFor(w.log[i], user, start) ==> w.log[i].event in w.emitted
  }

  ghost predicate WorldInv(w: World, user: UserId, start: nat) {
    && IsLog(w.log) && w.broadcast <= |w.log| && start <= w.cursor <= Reached(w) <= |w.log|
    && (!w.phase.Offline? ==> WireInv(w, user) && JoinInv(w, user))
    && IsCovered(w, user, start)
    && (!w.interrupted ==> w.emitted == Addressed(w.log[..Reached(w)], user, start))
    && Increasing(w.session) && (!w.phase.Offline? ==> forall e :: e in w.session ==> e.cursor <= Reached(w))
  }

  // ----- every action keeps it -----

  /** The client emits a stretch of the user's events that begins where it had got to. */
  lemma EmitKeeps(w: World, user: UserId, start: nat, events: seq<Event>, reached: nat)
    requires IsLog(w.log) && start <= Reached(w) <= reached <= |w.log|
    requires events == Addressed(w.log[..reached], user, Reached(w))
    requires IsCovered(w, user, start) && (!w.interrupted ==> w.emitted == Addressed(w.log[..Reached(w)], user, start))
    requires Increasing(w.session) && forall e :: e in w.session ==> e.cursor <= Reached(w)
    ensures forall i: nat :: i < reached && IsFor(w.log[i], user, start) ==> w.log[i].event in w.emitted + events
    ensures !w.interrupted ==> w.emitted + events == Addressed(w.log[..reached], user, start)
    ensures Increasing(w.session + events) && forall e :: e in w.session + events ==> e.cursor <= reached
  {
    var low := Reached(w);
    AddressedIsExact(w.log[..reached], user, low);
    forall i: nat | i < reached && IsFor(w.log[i], user, start) ensures w.log[i].event in w.emitted + events {
      if i >= low {
        assert w.log[..reached][i] == w.log[i];
        assert w.log[i].event in events;
      }
    }
    AddressedSplits(w.log[..reached], user, start, low);
    assert w.log[..reached][..low] == w.log[..low];
    assert forall e :: e in events ==> low < e.cursor <= reached;
  }

  lemma AppendKeeps(w: World, user: UserId, start: nat, recipients: set<UserId>, body: EventBody, now: Time)
    requires WorldInv(w, user, start)
    ensures WorldInv(Next(w, user, Append(recipients, body, now)), user, start)
  {
    var v := Next(w, user, Append(recipients, body, now));
    assert forall k :: 0 <= k <= |w.log| ==> v.log[..k] == w.log[..k];
    assert forall i: nat :: i < |w.log| ==> v.log[i] == w.log[i];
  }

  /** The frames for one more event of the log. */
  lemma OneMoreFrame(log: seq<UserEvent>, user: UserId, after: nat, n: nat)
    requires IsLog(log) && after <= n < |log|
    ensures var before, now := LiveFrames(Addressed(log[..n], user, after)), LiveFrames(Addressed(log[..n + 1], user, after));
            if user in log[n].recipients then now == before + [Live(log[n].event)] else now == before
  {
    assert log[..n + 1][..n] == log[..n];
    assert log[..n + 1][n] == log[n];
  }

  lemma WireGrows(wire: seq<Frame>, welcome: bool, frames: seq<Frame>, from: nat, top: nat, frame: Frame)
    requires IsWire(wire, welcome, frames, from, top)
    ensures IsWire(wire + [frame], welcome, frames + [frame], from, top)
  {
  }

  lemma ForwardHolds(w: World, user: UserId, before: seq<Frame>, after: seq<Frame>)
    requires WireHolds(w, before) && Enabled(w, Action.Forward)
    requires var entry := w.log[w.connection.next];
             if user in entry.recipients then after == before + [Live(entry.event)] else after == before
    ensures WireHolds(Next(w, user, Action.Forward), after)
  {
    var c := w.connection;
    WireGrows(c.wire, w.phase.Awaiting?, before, c.from, |w.log|, Live(w.log[c.next].event));
  }

  lemma ForwardWire(w: World, user: UserId)
    requires IsLog(w.log) && WireInv(w, user) && Enabled(w, Action.Forward)
    ensures WireInv(Next(w, user, Action.Forward), user)
  {
    var c := w.connection;
    OneMoreFrame(w.log, user, c.seen, c.next);
    ForwardHolds(w, user, LiveFrames(Addressed(w.log[..c.next], user, c.seen)),
                 LiveFrames(Addressed(w.log[..c.next + 1], user, c.seen)));
  }

  lemma ForwardKeeps(w: World, user: UserId, start: nat)
    requires WorldInv(w, user, start) && Enabled(w, Action.Forward)
    ensures WorldInv(Next(w, user, Action.Forward), user, start)
  {
    ForwardWire(w, user);
  }

  /** Taking the first event off the stream leaves the user's events above it. */
  lemma FirstSplits(log: seq<UserEvent>, user: UserId, after: nat)
    requires IsLog(log) && Addressed(log, user, after) != [] && after <= |log|
    ensures var first := Addressed(log, user, after)[0];
            && after < first.cursor <= |log| && log[first.cursor - 1].event == first
            && Addressed(log, user, after)[1..] == Addressed(log, user, first.cursor)
            && Addressed(log[..first.cursor], user, after) == [first]
  {
    var page := Sync(log, user, after, 1);
    PageSplits(log, user, after, 1);
    AddressedIsExact(log, user, after);
    var first := Addressed(log, user, after)[0];
    assert first in Addressed(log, user, after);
    assert page.events == [first];
  }

  lemma ReceiveWire(w: World, user: UserId)
    requires IsLog(w.log) && WireInv(w, user) && w.phase.Online? && w.connection.wire != []
    ensures var sent := w.log[..w.connection.next];
            var event := Addressed(sent, user, w.connection.seen)[0];
            && w.connection.wire[0] == Live(event) && w.connection.seen < event.cursor <= w.connection.next
            && Addressed(w.log[..event.cursor], user, w.connection.seen) == [event] && w.log[event.cursor - 1].event == event
            && WireInv(w.(connection := AfterFrame(w.connection)), user)
  {
    var c := w.connection;
    var sent := w.log[..c.next];
    FirstSplits(sent, user, c.seen);
    var event := Addressed(sent, user, c.seen)[0];
    assert sent[..event.cursor] == w.log[..event.cursor];
    assert LiveFrames(Addressed(sent, user, c.seen))[1..] == LiveFrames(Addressed(sent, user, c.seen)[1..]);
  }

  lemma ReceiveLiveKeeps(w: World, user: UserId, start: nat)
    requires WorldInv(w, user, start) && Enabled(w, Receive) && w.phase.Online?
    ensures WorldInv(Next(w, user, Receive), user, start)
  {
    ReceiveWire(w, user);
    var event := w.connection.wire[0].event;
    if event.cursor > w.cursor {
      OnlyTheFirst(w.log, user, w.connection.seen, w.cursor, event.cursor);
      EmitKeeps(w, user, start, [event], event.cursor);
    }
  }

  /** The user's events above the cursor and up to the first streamed one are that one alone. */
  lemma OnlyTheFirst(log: seq<UserEvent>, user: UserId, seen: nat, cursor: nat, first: nat)
    requires IsLog(log) && seen <= first <= |log| && cursor < first
    requires forall i: nat :: i < seen ==> !IsFor(log[i], user, cursor)
    requires Addressed(log[..first], user, seen) == [log[first - 1].event]
    ensures Addressed(log[..first], user, cursor) == [log[first - 1].event]
  {
    if seen <= cursor {
      SkipsToTheFirst(log[..first], user, seen, cursor);
    } else {
      AddressedSplits(log[..first], user, cursor, seen);
      assert log[..first][..seen] == log[..seen];
      NothingFor(log[..seen], user, cursor);
    }
  }

  lemma SkipsToTheFirst(log: seq<UserEvent>, user: UserId, seen: nat, cursor: nat)
    requires IsLog(log) && seen <= cursor < |log|
    requires Addressed(log, user, seen) == [log[|log| - 1].event]
    ensures Addressed(log, user, cursor) == Addressed(log, user, seen)
  {
    AddressedSplits(log, user, seen, cursor);
    AddressedIsExact(log[..cursor], user, seen);
    assert forall e :: e in Addressed(log[..cursor], user, seen) ==> e.cursor <= cursor;
    JoinOfOne(Addressed(log[..cursor], user, seen), Addressed(log, user, cursor), log[|log| - 1].event);
  }

  lemma JoinOfOne(a: seq<Event>, b: seq<Event>, x: Event)
    requires a + b == [x]
    ensures (a == [] && b == [x]) || x in a
  {
    if a == [] {
      assert a + b == b;
    } else {
      assert a[0] == (a + b)[0];
    }
  }

  lemma ReceiveWelcomeKeeps(w: World, user: UserId, start: nat)
    requires WorldInv(w, user, start) && Enabled(w, Receive) && w.phase.Awaiting?
    ensures WorldInv(Next(w, user, Receive), user, start)
  {
  }

  lemma LastIsFor(log: seq<UserEvent>, user: UserId, after: nat, last: nat)
    requires IsLog(log) && last <= |log| && Addressed(log[..last], user, after) != []
    requires LastCursor(Addressed(log[..last], user, after), after) == last
    ensures 0 < last && IsFor(log[last - 1], user, after)
  {
    AddressedIsExact(log[..last], user, after);
    var all := Addressed(log[..last], user, after);
    assert all[|all| - 1] in all;
  }

  lemma FetchPageKeeps(w: World, user: UserId, start: nat)
    requires WorldInv(w, user, start) && Enabled(w, FetchPage)
    ensures WorldInv(Next(w, user, FetchPage), user, start)
  {
    var local := w.phase.local;
    var page := Sync(w.log, user, local, CATCH_UP_PAGE);
    PageSplits(w.log, user, local, CATCH_UP_PAGE);
    EmitKeeps(w, user, start, page.events, page.next);
    if page.events != [] {
      LastIsFor(w.log, user, local, page.next);
    }
    if !page.hasMore {
      NothingFor(w.log, user, page.next);
    }
  }

  /** Every step of server, wire and client keeps the invariant. */
  lemma NextKeeps(w: World, user: UserId, start: nat, action: Action)
    requires WorldInv(w, user, start) && Enabled(w, action)
    ensures WorldInv(Next(w, user, action), user, start)
  {
    match action {
      case Append(recipients, body, now) => AppendKeeps(w, user, start, recipients, body, now);
      case Connect => NothingAbove(w.log[..w.broadcast], user, w.broadcast);
      case Greet => NothingAbove(w.log[..w.connection.next], user, w.connection.next);
      case Forward => ForwardKeeps(w, user, start);
      case Receive =>
        if w.phase.Awaiting? {
          ReceiveWelcomeKeeps(w, user, start);
        } else {
          ReceiveLiveKeeps(w, user, start);
        }
      case FetchPage => FetchPageKeeps(w, user, start);
      case Broadcast =>
      case Disconnect => DisconnectKeeps(w, user, start);
    }
  }

  lemma DisconnectKeeps(w: World, user: UserId, start: nat)
    requires WorldInv(w, user, start) && Enabled(w, Disconnect)
    ensures WorldInv(Next(w, user, Disconnect), user, start)
  {
  }

  // ----- results -----

  ghost predicate Possible(w: World, user: UserId, actions: seq<Action>)
    decreases |actions|
  {
    actions == [] || (Enabled(w, actions[0]) && Possible(Next(w, user, actions[0]), user, actions[1..]))
  }

  function Run(w: World, user: UserId, actions: seq<Action>): World
    requires Possible(w, user, actions)
    decreases |actions|
  {
    if actions == [] then w else Run(Next(w, user, actions[0]), user, actions[1..])
  }

  lemma {:induction false} RunKeeps(w: World, user: UserId, start: nat, actions: seq<Action>)
    requires WorldInv(w, user, start) && Possible(w, user, actions)
    ensures WorldInv(Run(w, user, actions), user, start)
    decreases |actions|
  {
    if actions != [] {
      NextKeeps(w, user, start, actions[0]);
      RunKeeps(Next(w, user, actions[0]), user, start, actions[1..]);
    }
  }

  /** A client that starts, offline, from a cursor the server has reached. */
  function Launch(log: seq<UserEvent>, broadcast: nat, start: nat): World {
    World(log, broadcast, Connection(0, 0, 0, false, []), Offline, start, [], [], false)
  }

  /** Online, with every event broadcast, forwarded and taken off the wire. */
  predicate IsSettled(w: World) {
    w.phase.Online? && w.connection.wire == [] && w.connection.next == |w.log|
  }

  /** No gap: after any interleaving of appends, broadcasts, connections, catch-ups, losses and reconnections, every event
      for the user between the starting cursor and the client's has been emitted, and once the client is online and
      settled that is every event of the log. Within one connection the emitted cursors strictly increase. */
  lemma NoGap(log: seq<UserEvent>, broadcast: nat, user: UserId, start: nat, actions: seq<Action>)
    requires IsLog(log) && broadcast <= |log| && start <= |log|
    requires Possible(Launch(log, broadcast, start), user, actions)
    ensures var w := Run(Launch(log, broadcast, start), user, actions);
            && Increasing(w.session)
            && forall i: nat :: i < |w.log| && IsFor(w.log[i], user, start) && (i + 1 <= w.cursor || IsSettled(w)) ==>
                                  w.log[i].event in w.emitted
  {
    var first := Launch(log, broadcast, start);
    LaunchIsGood(log, broadcast, user, start);
    RunKeeps(first, user, start, actions);
    var w := Run(first, user, actions);
    if IsSettled(w) {
      forall i: nat | i < |w.log| && IsFor(w.log[i], user, start) ensures i + 1 <= w.cursor {
        SettledIsAbove(w, user, start, i);
      }
    }
  }

  lemma LaunchIsGood(log: seq<UserEvent>, broadcast: nat, user: UserId, start: nat)
    requires IsLog(log) && broadcast <= |log| && start <= |log|
    ensures WorldInv(Launch(log, broadcast, start), user, start)
  {
    NothingAbove(log[..start], user, start);
  }

  lemma SettledIsAbove(w: World, user: UserId, start: nat, i: nat)
    requires WorldInv(w, user, start) && IsSettled(w) && i < |w.log| && IsFor(w.log[i], user, start)
    ensures i + 1 <= w.cursor
  {
    assert w.log[..|w.log|] == w.log;
    NothingFor(w.log, user, w.connection.seen);
  }

  lemma SettledHasEverything(w: World, user: UserId, start: nat)
    requires WorldInv(w, user, start) && IsSettled(w)
    ensures Addressed(w.log, user, start) == Addressed(w.log[..w.cursor], user, start)
  {
    AddressedSplits(w.log, user, start, w.cursor);
    forall i: nat | i < |w.log| ensures !IsFor(w.log[i], user, w.cursor) {
      if IsFor(w.log[i], user, start) {
        SettledIsAbove(w, user, start, i);
      }
    }
    NothingFor(w.log, user, w.cursor);
  }

  /** Exactly once: unless a catch-up was cut off after emitting something, the client has emitted the plain filter of the
      log up to where it got to, each event once and in order, across all its connections. */
  lemma ExactlyOnceUnlessInterrupted(log: seq<UserEvent>, broadcast: nat, user: UserId, start: nat, actions: seq<Action>)
    requires IsLog(log) && broadcast <= |log| && start <= |log|
    requires Possible(Launch(log, broadcast, start), user, actions)
    requires !Run(Launch(log, broadcast, start), user, actions).interrupted
    ensures var w := Run(Launch(log, broadcast, start), user, actions);
            && Reached(w) <= |w.log| && w.emitted == Addressed(w.log[..Reached(w)], user, start)
            && Increasing(w.emitted) && (IsSettled(w) ==> w.emitted == Addressed(w.log, user, start))
  {
    var first := Launch(log, broadcast, start);
    LaunchIsGood(log, broadcast, user, start);
    RunKeeps(first, user, start, actions);
    EmittedIsTheFilter(Run(first, user, actions), user, start);
  }

  lemma EmittedIsTheFilter(w: World, user: UserId, start: nat)
    requires WorldInv(w, user, start) && !w.interrupted
    ensures Increasing(w.emitted) && (IsSettled(w) ==> w.emitted == Addressed(w.log, user, start))
  {
    AddressedIsExact(w.log[..Reached(w)], user, start);
    if IsSettled(w) {
      SettledHasEverything(w, user, start);
    }
  }

  /** The condition is exact: a catch-up cut off after emitting something is repeated, because the kept cursor still lies
      before what was emitted. The next catch-up begins with an event the client has already had. */
  lemma InterruptionRepeats(w: World, user: UserId, start: nat)
    requires WorldInv(w, user, start) && w.phase.CatchingUp? && w.phase.local > w.cursor
    ensures var v := Next(w, user, Disconnect);
            var page := Sync(v.log, user, v.cursor, CATCH_UP_PAGE);
            && v.interrupted && page.events != [] && page.events[0] in v.emitted
  {
    var first := FirstOfPage(w.log, user, w.cursor, w.phase.local - 1);
    assert IsFor(w.log[first.cursor - 1], user, start);
  }

  lemma RunsOn(w: World, user: UserId, action: Action, rest: seq<Action>)
    requires Enabled(w, action) && Possible(Next(w, user, action), user, rest)
    ensures Possible(w, user, [action] + rest) && Run(w, user, [action] + rest) == Run(Next(w, user, action), user, rest)
  {
    assert ([action] + rest)[1..] == rest;
  }

  /** Coming online: the welcome starts a catch-up from the kept cursor. */
  const RECONNECT: seq<Action> := [Connect] + ([Greet] + ([Receive] + ([FetchPage] + [])))

  lemma ConnectingCatchesUp(w: World, user: UserId)
    requires w.phase.Offline? && w.cursor < |w.log|
    ensures Possible(w, user, RECONNECT)
    ensures var v := Run(w, user, RECONNECT);
            var page := Sync(w.log, user, w.cursor, CATCH_UP_PAGE);
            && v.emitted == w.emitted + page.events && v.cursor >= w.cursor
            && (page.hasMore ==> v.phase == CatchingUp(Max(w.cursor, page.next)) && v.cursor == w.cursor)
  {
    var w1 := Next(w, user, Connect);
    var w2 := Next(w1, user, Greet);
    var w3 := Next(w2, user, Receive);
    RunsOn(w3, user, FetchPage, []);
    RunsOn(w2, user, Receive, [FetchPage] + []);
    RunsOn(w1, user, Greet, [Receive] + ([FetchPage] + []));
    RunsOn(w, user, Connect, [Greet] + ([Receive] + ([FetchPage] + [])));
  }

  /** So the client emits that event twice: cut off, it reconnects, is welcomed, and fetches its first page again. */
  lemma ReconnectionRepeats(w: World, user: UserId, start: nat) returns (i: nat, j: nat)
    requires WorldInv(w, user, start) && w.phase.CatchingUp? && w.phase.local > w.cursor
    ensures Possible(w, user, [Disconnect] + RECONNECT)
    ensures var v := Run(w, user, [Disconnect] + RECONNECT);
            i < j < |v.emitted| && v.emitted[i] == v.emitted[j]
  {
    var v := Next(w, user, Disconnect);
    InterruptionRepeats(w, user, start);
    ConnectingCatchesUp(v, user);
    RunsOn(w, user, Disconnect, RECONNECT);
    var page := Sync(w.log, user, w.cursor, CATCH_UP_PAGE);
    i :| 0 <= i < |w.emitted| && w.emitted[i] == page.events[0];
    j := |w.emitted|;
  }

  /** A log of which the user gets every event. */
  function Busy(user: UserId, n: nat): seq<UserEvent> {
    seq(n, i requires 0 <= i < n => UserEvent({user}, Event(i + 1, AllRead, 0)))
  }

  lemma {:induction false} BusyIsAddressed(user: UserId, n: nat)
    ensures IsLog(Busy(user, n)) && |Addressed(Busy(user, n), user, 0)| == n
  {
    if n > 0 {
      BusyIsAddressed(user, n - 1);
      assert Busy(user, n)[..n - 1] == Busy(user, n - 1);
    }
  }

  /** A client that starts with more than one page to catch up on, and is cut off after the first, emits an event twice. */
  lemma InterruptionIsReachable(user: UserId) returns (i: nat, j: nat)
    ensures var first := Launch(Busy(user, 201), 0, 0);
            var actions := RECONNECT + ([Disconnect] + RECONNECT);
            && Possible(first, user, actions)
            && i < j < |Run(first, user, actions).emitted|
            && Run(first, user, actions).emitted[i] == Run(first, user, actions).emitted[j]
  {
    var log := Busy(user, 201);
    var first := Launch(log, 0, 0);
    BusyIsAddressed(user, 201);
    LaunchIsGood(log, 0, user, 0);
    ConnectingCatchesUp(first, user);
    PageSplits(log, user, 0, CATCH_UP_PAGE);
    AddressedIsExact(log, user, 0);
    RunKeeps(first, user, 0, RECONNECT);
    i, j := ReconnectionRepeats(Run(first, user, RECONNECT), user, 0);
    RunJoins(first, user, RECONNECT, [Disconnect] + RECONNECT);
  }

  lemma {:induction false} RunJoins(w: World, user: UserId, first: seq<Action>, second: seq<Action>)
    requires Possible(w, user, first) && Possible(Run(w, user, first), user, second)
    ensures Possible(w, user, first + second) && Run(w, user, first + second) == Run(Run(w, user, first), user, second)
    decreases |first|
  {
    if first == [] {
      assert first + second == second;
    } else {
      RunJoins(Next(w, user, first[0]), user, first[1..], second);
      assert (first + second)[1..] == first[1..] + second;
    }
  }

  /** A page begins with the first event for the user above the cursor. */
  lemma FirstOfPage(log: seq<UserEvent>, user: UserId, after: nat, i: nat) returns (first: Event)
    requires IsLog(log) && after <= i < |log| && IsFor(log[i], user, after)
    ensures var page := Sync(log, user, after, CATCH_UP_PAGE); page.events != [] && page.events[0] == first
    ensures after < first.cursor <= i + 1 && log[first.cursor - 1].event == first && IsFor(log[first.cursor - 1], user, after)
  {
    NothingFor(log, user, after);
    FirstSplits(log, user, after);
    FirstIsLowest(log, user, after, i);
    first := Addressed(log, user, after)[0];
  }

  lemma FirstIsLowest(log: seq<UserEvent>, user: UserId, after: nat, i: nat)
    requires IsLog(log) && i < |log| && IsFor(log[i], user, after) && Addressed(log, user, after) != []
    ensures Addressed(log, user, after)[0].cursor <= i + 1
    ensures forall j: nat :: j < |log| && log[j].event == Addressed(log, user, after)[0] ==> user in log[j].recipients
  {
    AddressedIsExact(log, user, after);
    var all := Addressed(log, user, after);
    assert log[i].event in all;
    var k :| 0 <= k < |all| && all[k] == log[i].event;
    assert all[0] in all;
  }

  // ----- the client as an object -----

  /** The client's loop state: a kept cursor, and the channel it emits to. */
  class Client {
    var cursor: nat
    var emitted: seq<Event>

    constructor (start: nat)
      ensures cursor == start && emitted == []
    {
      cursor, emitted := start, [];
    }

    /** `handle_server_frame`. During a catch-up the log grows as `feed` says, and the connection is lost after `allowed`
        requests. A catch-up that is cut off leaves the cursor where it was, but not what was emitted. */
    method HandleFrame(frame: Frame, feed: nat -> seq<UserEvent>, allowed: nat, user: UserId)
      returns (ok: bool, requests: nat)
      requires IsFeed(feed) && cursor <= |feed(0)|
      modifies this
      ensures requests <= allowed && IsLog(feed(requests))
      ensures match frame
              case Welcome(latest) =>
                if latest <= old(cursor) then ok && emitted == old(emitted) && cursor == old(cursor)
                else if ok then
                  && 0 < requests && var missed := Addressed(feed(requests - 1), user, old(cursor));
                  && emitted == old(emitted) + missed && cursor == LastCursor(missed, old(cursor))
                  && Addressed(feed(requests - 1), user, cursor) == []
                else
                  && cursor == old(cursor) && old(emitted) <= emitted
                  && var reached := LastCursor(emitted[|old(emitted)|..], old(cursor));
                  && reached <= |feed(requests)|
                  && emitted == old(emitted) + Addressed(feed(requests)[..reached], user, old(cursor))
              case Live(event) =>
                ok && if event.cursor > old(cursor)
                      then emitted == old(emitted) + [event] && cursor == event.cursor
                      else emitted == old(emitted) && cursor == old(cursor)
      ensures StandsStill(feed) && allowed > |Addressed(feed(0), user, old(cursor))| ==> ok
    {
      ok, requests := true, 0;
      match frame {
        case Welcome(latest) =>
          if latest > cursor {
            var missed, reached, made, done := CatchUp(feed, allowed, user, cursor, CATCH_UP_PAGE);
            emitted, requests, ok := emitted + missed, made, done;
            assert emitted[|old(emitted)|..] == missed;
            if done {
              cursor := reached;
            }
          }
        case Live(event) =>
          if event.cursor > cursor {
            cursor := event.cursor;
            emitted := emitted + [event];
          }
      }
    }

    /** One undisturbed connection: the welcome, then the stream from a subscription that came before it. Whatever the
        overlap of the two, the client emits exactly what it had missed, once and in order. */
    method Follow(latest: nat, stream: seq<Frame>, log: seq<UserEvent>, user: UserId, from: nat)
      requires IsLog(log) && cursor <= |log| && from <= latest <= |log|
      requires stream == LiveFrames(Addressed(log, user, from))
      modifies this
      ensures emitted == old(emitted) + Addressed(log, user, old(cursor))
      ensures cursor <= |log| && Addressed(log, user, cursor) == []
    {
      ghost var goal := emitted + Addressed(log, user, cursor);
      WelcomeJoins(log, user, cursor, emitted, latest, from);
      var still := (k: nat) => log;
      var enough := |Addressed(log, user, cursor)| + 1;
      var ok, requests := HandleFrame(Welcome(latest), still, enough, user);
      ghost var seen := from;
      for k := 0 to |stream|
        invariant from <= seen <= |log| && stream[k..] == LiveFrames(Addressed(log, user, seen))
        invariant cursor <= |log| && IsJoined(log, user, cursor, seen) && emitted + Addressed(log, user, cursor) == goal
      {
        NextFrame(stream, k, log, user, seen);
        FrameJoins(log, user, cursor, emitted, seen);
        ok, requests := HandleFrame(stream[k], still, 0, user);
        seen := stream[k].event.cursor;
      }
      NothingFor(log, user, seen);
      NothingFor(log, user, cursor);
    }
  }

  /** Nothing for the user lies above the cursor in the part of the log the stream has passed. */
  ghost predicate IsJoined(log: seq<UserEvent>, user: UserId, cursor: nat, seen: nat) {
    forall i: nat :: i < seen && i < |log| ==> !IsFor(log[i], user, cursor)
  }

  lemma WelcomeJoins(log: seq<UserEvent>, user: UserId, cursor: nat, emitted: seq<Event>, latest: nat, from: nat)
    requires IsLog(log) && cursor <= |log| && from <= latest <= |log|
    ensures var missed := Addressed(log, user, cursor);
            && LastCursor(missed, cursor) <= |log|
            && (Addressed(log, user, LastCursor(missed, cursor)) == [] ==>
                  && IsJoined(log, user, LastCursor(missed, cursor), from)
                  && emitted + missed + [] == emitted + missed)
            && (latest <= cursor ==> IsJoined(log, user, cursor, from))
  {
    AddressedIsExact(log, user, cursor);
    NothingFor(log, user, LastCursor(Addressed(log, user, cursor), cursor));
  }

  lemma NextFrame(stream: seq<Frame>, k: nat, log: seq<UserEvent>, user: UserId, seen: nat)
    requires k < |stream| && stream[k..] == LiveFrames(Addressed(log, user, seen))
    requires IsLog(log) && seen <= |log|
    ensures Addressed(log, user, seen) != [] && stream[k] == Live(Addressed(log, user, seen)[0])
    ensures stream[k + 1..] == LiveFrames(Addressed(log, user, Addressed(log, user, seen)[0].cursor))
  {
    assert stream[k] == stream[k..][0] && stream[k + 1..] == stream[k..][1..];
    FirstSplits(log, user, seen);
    assert LiveFrames(Addressed(log, user, seen))[1..] == LiveFrames(Addressed(log, user, seen)[1..]);
  }

  /** The next frame of the stream is either already covered or the next event to emit. */
  lemma FrameJoins(log: seq<UserEvent>, user: UserId, cursor: nat, emitted: seq<Event>, seen: nat)
    requires IsLog(log) && cursor <= |log| && seen <= |log| && Addressed(log, user, seen) != [] && IsJoined(log, user, cursor, seen)
    ensures var event := Addressed(log, user, seen)[0];
            && seen < event.cursor <= |log|
            && (event.cursor <= cursor ==> IsJoined(log, user, cursor, event.cursor))
            && (event.cursor > cursor ==>
                  && IsJoined(log, user, event.cursor, event.cursor)
                  && emitted + [event] + Addressed(log, user, event.cursor) == emitted + Addressed(log, user, cursor))
  {
    FirstSplits(log, user, seen);
    var event := Addressed(log, user, seen)[0];
    if event.cursor > cursor {
      OnlyTheFirst(log, user, seen, cursor, event.cursor);
      AddressedSplits(log, user, cursor, event.cursor);
    }
  }
}
