/** Sending a message end to end: a durable outbox on the client, a network that may lose, delay, repeat and reorder
    requests and replies, and the server's dedup table. */
module Delivery {
  import opened Domain
  import opened ServerState
  import opened ServerInvariants
  import opened ServerRuns
  import opened ServerTheorems
  import opened ServerKeys

  /** A queued row: its payload is `None` when it cannot be parsed back into a request. */
  datatype QueuedRow = QueuedRow(conversation: ConversationId, request: Option<SendRequest>)

  datatype Packet = Packet(conversation: ConversationId, request: SendRequest)

  datatype World = World(
    server: State,
    outbox: map<MessageId, QueuedRow>,
    requests: set<Packet>,
    acks: set<MessageId>)

  datatype Action =
    | Enqueue(packet: Packet)
    | Transmit(key: MessageId)
    | SendUnqueued(packet: Packet)
    | DropMalformed(key: MessageId)
    | Handle(packet: Packet, id: MessageId, now: Time)
    | ReceiveAck(key: MessageId)
    | RecordFailure(key: MessageId)
    | Discard(key: MessageId)
    | ClearCache
    | Elsewhere(call: Call)

  predicate WellFormed(key: MessageId, item: QueuedRow) {
    item.request.Some? && item.request.value.clientId == key
  }

  predicate IsQueued(w: World, key: MessageId) {
    key in w.outbox && WellFormed(key, w.outbox[key])
  }

  /** When an action can happen: only queued items are transmitted, only sent packets handled, only given acks received. */
  ghost predicate Enabled(w: World, user: UserId, action: Action) {
    match action
    case Transmit(key) => IsQueued(w, key)
    case DropMalformed(key) => key in w.outbox && !WellFormed(key, w.outbox[key])
    case Handle(packet, id, _) => packet in w.requests && IsFresh(w.server, id)
    case ReceiveAck(key) => key in w.acks
    case Elsewhere(call) => MintsEnough(call.op) && FreshIds(w.server, call.op)
    case _ => true
  }

  /** Queueing a key again replaces its payload but not its conversation. */
  function Queue(outbox: map<MessageId, QueuedRow>, packet: Packet): map<MessageId, QueuedRow> {
    var key := packet.request.clientId;
    outbox[key := QueuedRow(if key in outbox then outbox[key].conversation else packet.conversation, Some(packet.request))]
  }

  ghost function Next(w: World, user: UserId, action: Action): World
    requires Enabled(w, user, action)
  {
    match action
    case Enqueue(packet) => w.(outbox := Queue(w.outbox, packet))
    case Transmit(key) => w.(requests := w.requests + {Packet(w.outbox[key].conversation, w.outbox[key].request.value)})
    case SendUnqueued(packet) => w.(requests := w.requests + {packet})
    case DropMalformed(key) => w.(outbox := w.outbox - {key})
    case Handle(packet, id, now) =>
      var r := SendMessage(w.server, user, packet.conversation, packet.request, id, now);
      if r.Ok? then w.(server := r.value.0, acks := w.acks + {packet.request.clientId}) else w
    case ReceiveAck(key) => w.(outbox := w.outbox - {key})
    case RecordFailure(_) => w
    case Discard(key) => w.(outbox := w.outbox - {key})
    case ClearCache => w.(outbox := map[])
    case Elsewhere(call) => w.(server := Step(w.server, call.op, call.now))
  }

  /** Every acknowledgement on the network names a delivered message. */
  ghost predicate WorldInv(w: World, user: UserId) {
    Inv(w.server) && forall key :: key in w.acks ==> IsDelivered(w.server, user, key)
  }

  predicate Abandons(action: Action, key: MessageId) {
    action == Discard(key) || action.ClearCache?
  }

  /** One action: delivered messages stay delivered, and a well-formed item leaves the outbox only when its message is
      in the server's logs or the user abandons it. */
  lemma NextKeeps(w: World, user: UserId, action: Action, key: MessageId)
    requires WorldInv(w, user) && Enabled(w, user, action)
    ensures var v := Next(w, user, action);
            && WorldInv(v, user)
            && (IsDelivered(w.server, user, key) ==> IsDelivered(v.server, user, key))
            && (IsQueued(w, key) ==> IsQueued(v, key) || IsDelivered(v.server, user, key) || Abandons(action, key))
  {
    match action {
      case Handle(packet, id, now) =>
        var r := SendMessage(w.server, user, packet.conversation, packet.request, id, now);
        SendKeeps(w.server, user, packet.conversation, packet.request, id, now);
        if r.Ok? {
          SentIsRegistered(w.server, user, packet.conversation, packet.request, id, now);
        }
      case Elsewhere(call) =>
        StepKeeps(w.server, call.op, call.now);
      case _ =>
    }
  }

  ghost predicate Possible(w: World, user: UserId, actions: seq<Action>)
    decreases |actions|
  {
    actions == [] || (Enabled(w, user, actions[0]) && Possible(Next(w, user, actions[0]), user, actions[1..]))
  }

  ghost function Run(w: World, user: UserId, actions: seq<Action>): World
    requires Possible(w, user, actions)
    decreases |actions|
  {
    if actions == [] then w else Run(Next(w, user, actions[0]), user, actions[1..])
  }

  /** Over every run, a well-formed outbox item that was not discarded or cleared is still queued or has been delivered. */
  lemma {:induction false} QueuedUntilDelivered(w: World, user: UserId, actions: seq<Action>, key: MessageId)
    requires WorldInv(w, user) && Possible(w, user, actions)
    requires IsQueued(w, key) || IsDelivered(w.server, user, key)
    requires forall action :: action in actions ==> !Abandons(action, key)
    ensures WorldInv(Run(w, user, actions), user)
    ensures IsQueued(Run(w, user, actions), key) || IsDelivered(Run(w, user, actions).server, user, key)
    decreases |actions|
  {
    if actions != [] {
      NextKeeps(w, user, actions[0], key);
      QueuedUntilDelivered(Next(w, user, actions[0]), user, actions[1..], key);
    }
  }

  // ----- what is delivered is what was queued -----

  predicate SaysTheSame(p: Packet, packet: Packet) {
    p.request.clientId == packet.request.clientId ==>
      p.conversation == packet.conversation && p.request.content == packet.request.content
  }

  /** Nothing on this client or on the network uses the packet's client id for anything else, and if the server knows the id
      then for this packet. */
  ghost predicate IsOnlyFor(w: World, user: UserId, packet: Packet) {
    var key := packet.request.clientId;
    && IsFiledAs(w.server, user, key, packet.conversation, packet.request.content)
    && (forall p :: p in w.requests ==> SaysTheSame(p, packet))
    && (key in w.outbox ==> w.outbox[key].conversation == packet.conversation)
    && (IsQueued(w, key) ==> w.outbox[key].request.value.content == packet.request.content)
  }

  /** This action does not use the packet's client id for anything else. */
  predicate RespectsKey(action: Action, user: UserId, packet: Packet) {
    match action
    case Enqueue(p) => SaysTheSame(p, packet)
    case SendUnqueued(p) => SaysTheSame(p, packet)
    case Elsewhere(call) => FilesOnly(call.op, user, packet.request.clientId, packet.conversation, packet.request.content)
    case _ => true
  }

  lemma NextIsOnlyFor(w: World, user: UserId, action: Action, packet: Packet)
    requires WorldInv(w, user) && Enabled(w, user, action)
    requires IsOnlyFor(w, user, packet) && RespectsKey(action, user, packet)
    ensures IsOnlyFor(Next(w, user, action), user, packet)
  {
    var key := packet.request.clientId;
    match action {
      case Handle(p, id, now) =>
        assert SaysTheSame(p, packet);
        StepFiles(w.server, Send(user, p.conversation, p.request, id), now, user, key, packet.conversation, packet.request.content);
      case Elsewhere(call) =>
        StepFiles(w.server, call.op, call.now, user, key, packet.conversation, packet.request.content);
      case _ =>
    }
  }

  lemma {:induction false} RunIsOnlyFor(w: World, user: UserId, actions: seq<Action>, packet: Packet)
    requires WorldInv(w, user) && Possible(w, user, actions) && IsOnlyFor(w, user, packet)
    requires forall action :: action in actions ==> RespectsKey(action, user, packet)
    ensures IsOnlyFor(Run(w, user, actions), user, packet)
    decreases |actions|
  {
    if actions != [] {
      NextKeeps(w, user, actions[0], packet.request.clientId);
      NextIsOnlyFor(w, user, actions[0], packet);
      RunIsOnlyFor(Next(w, user, actions[0]), user, actions[1..], packet);
    }
  }

  /** Once a queued message has left the outbox without being abandoned, exactly one log entry holds it, whatever was
      lost, repeated or reordered on the way. If its client id was used for nothing else, that entry is in the conversation
      it was queued for and reads as it was queued, or as recalled. */
  lemma AcknowledgedMeansOnce(w: World, user: UserId, actions: seq<Action>, key: MessageId) returns (c: ConversationId, i: nat)
    requires WorldInv(w, user) && Possible(w, user, actions) && IsQueued(w, key)
    requires forall action :: action in actions ==> !Abandons(action, key)
    requires key !in Run(w, user, actions).outbox
    ensures var s := Run(w, user, actions).server;
            && IsCopy(s, user, key, c, i)
            && forall d, j: nat :: IsCopy(s, user, key, d, j) || IsClientCopy(s, user, key, d, j) ==> d == c && j == i
    ensures var packet := Packet(w.outbox[key].conversation, w.outbox[key].request.value);
            IsOnlyFor(w, user, packet) && (forall action :: action in actions ==> RespectsKey(action, user, packet)) ==>
              c == packet.conversation && IsCopyOf(Run(w, user, actions).server, user, key, c, i, packet.request.content)
  {
    QueuedUntilDelivered(w, user, actions, key);
    c, i := RegisteredExactlyOnce(Run(w, user, actions).server, user, key);
    var packet := Packet(w.outbox[key].conversation, w.outbox[key].request.value);
    if IsOnlyFor(w, user, packet) && forall action :: action in actions ==> RespectsKey(action, user, packet) {
      RunIsOnlyFor(w, user, actions, packet);
    }
  }

  /** A retry that reaches the server after the first copy changes nothing there. */
  lemma LateCopiesAreHarmless(w: World, user: UserId, packet: Packet, id: MessageId, now: Time)
    requires WorldInv(w, user) && Enabled(w, user, Handle(packet, id, now))
    requires IsDelivered(w.server, user, packet.request.clientId)
    ensures Next(w, user, Handle(packet, id, now)).server == w.server
  {
    if ExpiryInRange(packet.request.expiresIn) {
      KnownKeyIsAnswered(w.server, user, packet.conversation, packet.request, id, now);
    }
  }

  /** A queued message the server accepts gets there and leaves the outbox, once the network lets a request and its reply
      through; the other rows stay. */
  lemma QueuedCanBeDelivered(w: World, user: UserId, key: MessageId, id: MessageId, now: Time)
    requires WorldInv(w, user) && IsQueued(w, key) && IsFresh(w.server, id)
    requires SendMessage(w.server, user, w.outbox[key].conversation, w.outbox[key].request.value, id, now).Ok?
    ensures var packet := Packet(w.outbox[key].conversation, w.outbox[key].request.value);
            var sent := Next(w, user, Transmit(key));
            && Enabled(sent, user, Handle(packet, id, now))
            && var handled := Next(sent, user, Handle(packet, id, now));
               && Enabled(handled, user, ReceiveAck(key))
               && IsDelivered(handled.server, user, key)
               && Next(handled, user, ReceiveAck(key)) == handled.(outbox := w.outbox - {key})
  {
    var packet := Packet(w.outbox[key].conversation, w.outbox[key].request.value);
    var sent := Next(w, user, Transmit(key));
    SentIsRegistered(sent.server, user, packet.conversation, packet.request, id, now);
  }
}
