/** The desktop client's refresh gate: any number of threads share one session, and at most one at a time may rotate
    its refresh token. Every step between two operations on the session's lock, the gate or the credential store is one
    action, interleaved in any order. */
module RefreshGate {
  import opened Domain
  import opened Sessions
  import opened SessionTheorems

  type Thread = nat

  /** Where a thread is. `spent` is the refresh token a rotation has just consumed, `cause` the access token it replaces. */
  datatype Place =
    | Idle
    | Trying(access: TokenHash)
    | Waiting(access: TokenHash)
    | Deciding(access: TokenHash)
    | Choosing(access: TokenHash)
    | Loaded(saved: TokenHash)
    | Restoring
    | Refreshing(token: TokenHash, cause: Option<TokenHash>)
    | Accepting(pair: Pair, spent: Option<TokenHash>, cause: Option<TokenHash>)
    | Storing(pair: Pair, spent: Option<TokenHash>, cause: Option<TokenHash>)
    | Finishing
    | Clearing
    | Forgetting

  /** `rotations` records the access tokens that have caused a rotation, in order. */
  datatype World = World(
    server: SessionState,
    access: Option<TokenHash>,
    refresh: Option<TokenHash>,
    saved: Option<TokenHash>,
    gate: Option<Thread>,
    threads: map<Thread, Place>,
    rotations: seq<TokenHash>)

  datatype Action =
    | Begin(t: Thread)
    | Answer(t: Thread, unauthorized: bool)
    | Acquire(t: Thread)
    | Decide(t: Thread)
    | Exchange(t: Thread, pair: Pair, now: Time, persisted: bool)
    | Save(t: Thread)
    | Store(t: Thread)
    | Finish(t: Thread)
    | Clear(t: Thread)
    | Forget(t: Thread)
    | Load(t: Thread)
    | Adopt(t: Thread)
    | ReadRefresh(t: Thread)
    | SignIn(t: Thread, op: Op, now: Time)
    | Elsewhere(op: Op, now: Time)

  function At(w: World, t: Thread): Place {
    if t in w.threads then w.threads[t] else Idle
  }

  function Move(w: World, t: Thread, place: Place): World {
    w.(threads := w.threads[t := place])
  }

  predicate StartsSession(op: Op) {
    op.Register? || op.LogIn? || op.LogInByCode?
  }

  /** The refresh tokens this client knows. */
  ghost predicate Knows(w: World, token: TokenHash) {
    || w.refresh == Some(token)
    || w.saved == Some(token)
    || exists t :: t in w.threads && Carries(w.threads[t], token)
  }

  predicate Carries(place: Place, token: TokenHash) {
    match place
    case Loaded(saved) => saved == token
    case Refreshing(held, _) => held == token
    case Accepting(pair, _, _) => pair.refresh == token
    case Storing(pair, _, _) => pair.refresh == token
    case _ => false
  }

  /** When an action can happen; other parties never present this client's refresh tokens. */
  ghost predicate Enabled(w: World, action: Action) {
    match action
    case Begin(t) => At(w, t).Idle? && w.access.Some?
    case Answer(t, _) => At(w, t).Trying?
    case Acquire(t) => w.gate.None? && (At(w, t).Waiting? || At(w, t).Restoring?)
    case Decide(t) => At(w, t).Deciding?
    case Exchange(t, pair, _, _) => At(w, t).Refreshing? && IsNewPair(w.server, pair)
    case Save(t) => At(w, t).Accepting?
    case Store(t) => At(w, t).Storing?
    case Finish(t) => At(w, t).Finishing?
    case Clear(t) => At(w, t).Clearing?
    case Forget(t) => At(w, t).Forgetting?
    case Load(t) => At(w, t).Idle? && w.saved.Some?
    case Adopt(t) => At(w, t).Loaded?
    case ReadRefresh(t) => w.gate == Some(t) && (At(w, t).Restoring? || At(w, t).Choosing?)
    case SignIn(t, op, _) => At(w, t).Idle? && StartsSession(op) && IsFresh(w.server, op)
    case Elsewhere(op, _) =>
      IsFresh(w.server, op)
      && (op.Refresh? ==> !Knows(w, op.token)) && (op.LogOut? ==> !Knows(w, op.token))
  }

  /** Leaving `authorized_json` or `restore` drops the guard if it is held. */
  function Leave(w: World, t: Thread): World {
    Move(w, t, Idle).(gate := if w.gate == Some(t) then None else w.gate)
  }

  function Next(w: World, action: Action): World {
    match action
    case Begin(t) => if w.access.Some? then Move(w, t, Trying(w.access.value)) else w
    case Answer(t, unauthorized) =>
      if !At(w, t).Trying? then w
      else if unauthorized then Move(w, t, Waiting(At(w, t).access)) else Move(w, t, Idle)
    case Acquire(t) =>
      if At(w, t).Waiting? then Move(w, t, Deciding(At(w, t).access)).(gate := Some(t)) else w.(gate := Some(t))
    case Decide(t) =>
      if !At(w, t).Deciding? then w
      else if w.access != Some(At(w, t).access) then Move(w, t, Finishing)
      else Move(w, t, Choosing(At(w, t).access))
    case Exchange(t, pair, now, persisted) =>
      if !At(w, t).Refreshing? then w
      else
        var Refreshing(token, cause) := At(w, t);
        var r := Rotate(w.server, token, pair, now);
        if !persisted then (if r.Ok? then Leave(w, t) else Move(w, t, Clearing))
        else if r.Err? then Move(w, t, Clearing)
        else if r.value.1.Session? then
          Move(w, t, Accepting(pair, Some(token), cause))
          .(server := r.value.0, rotations := if cause.Some? then w.rotations + [cause.value] else w.rotations)
        else Move(w, t, Clearing).(server := r.value.0)
    case Save(t) =>
      if !At(w, t).Accepting? then w
      else
        var Accepting(pair, spent, cause) := At(w, t);
        Move(w, t, Storing(pair, spent, cause)).(saved := Some(pair.refresh))
    case Store(t) =>
      if !At(w, t).Storing? then w
      else Move(w, t, Finishing).(access := Some(At(w, t).pair.access), refresh := Some(At(w, t).pair.refresh))
    case Finish(t) => Leave(w, t)
    case Clear(t) => Move(w, t, Forgetting).(access := None, refresh := None)
    case Forget(t) => Leave(w, t).(saved := None)
    case Load(t) => if w.saved.Some? then Move(w, t, Loaded(w.saved.value)) else w
    case Adopt(t) => if At(w, t).Loaded? then Move(w, t, Restoring).(refresh := Some(At(w, t).saved)) else w
    case ReadRefresh(t) =>
      if w.refresh.None? then Move(w, t, Clearing)
      else Move(w, t, Refreshing(w.refresh.value, if At(w, t).Choosing? then Some(At(w, t).access) else None))
    case SignIn(t, op, now) =>
      var r := Apply(w.server, op, now);
      if r.Ok? && r.value.1.Session? then Move(w, t, Accepting(r.value.1.issued.pair, None, None)).(server := r.value.0) else w
    case Elsewhere(op, now) => w.(server := Step(w.server, op, now))
  }

  // ----- what a restore has to fear -----

  /** The server would still rotate this token. */
  predicate IsRefreshable(s: SessionState, token: TokenHash) {
    token in s.refresh && !s.refresh[token].revoked
  }

  /** The gate holder has consumed this refresh token and not yet replaced it. */
  predicate IsBeingReplaced(w: World, token: TokenHash) {
    w.gate.Some? && match At(w, w.gate.value)
      case Accepting(_, spent, _) => spent == Some(token)
      case Storing(_, spent, _) => spent == Some(token)
      case _ => false
  }

  ghost predicate IsCarriedBeside(w: World, u: Thread, token: TokenHash) {
    exists t :: t in w.threads && t != u && Carries(w.threads[t], token)
  }

  ghost predicate IsRestoringBeside(w: World, u: Thread) {
    exists t :: t in w.threads && t != u && w.threads[t].Restoring?
  }

  /** The gate is free, or its holder can leave it without replacing or clearing the session. */
  predicate CanLeaveSession(w: World) {
    w.gate.Some? ==> match At(w, w.gate.value)
      case Accepting(_, _, _) => false
      case Storing(_, _, _) => false
      case Clearing => false
      case Refreshing(token, _) => IsRefreshable(w.server, token)
      case _ => true
  }

  /** The guard of a restore: beside this thread the client has consumed the saved token already, or something in it can
      still do so, being another thread that carries the token, or any thread while the session holds it. */
  ghost predicate IsThreatened(w: World, u: Thread, token: TokenHash) {
    IsBeingReplaced(w, token)
    || (IsRefreshable(w.server, token)
        && (IsCarriedBeside(w, u, token)
            || (w.refresh == Some(token) && CanLeaveSession(w) && (w.access.Some? || IsRestoringBeside(w, u)))))
  }

  /** A restore starts only when its saved token is not threatened. */
  ghost predicate IsCareful(w: World, action: Action) {
    action.Load? && w.saved.Some? ==> !IsThreatened(w, action.t, w.saved.value)
  }

  // ----- the invariant -----

  predicate MentionsAccess(place: Place, access: TokenHash) {
    match place
    case Trying(a) => a == access
    case Waiting(a) => a == access
    case Deciding(a) => a == access
    case Choosing(a) => a == access
    case Refreshing(_, cause) => cause == Some(access)
    case Accepting(pair, _, _) => pair.access == access
    case Storing(pair, _, _) => pair.access == access
    case _ => false
  }

  /** A pair on its way into the session has not been seen anywhere else yet. */
  ghost predicate IsUnseen(w: World, t: Thread, pair: Pair) {
    && w.access != Some(pair.access) && pair.access !in w.rotations
    && (forall u :: u in w.threads && u != t ==> !MentionsAccess(w.threads[u], pair.access))
    && (IsRefreshable(w.server, pair.refresh) ==> w.refresh != Some(pair.refresh) && !IsCarriedBeside(w, t, pair.refresh))
  }

  ghost predicate IsPending(w: World, t: Thread, pair: Pair, spent: Option<TokenHash>) {
    && (spent.Some? ==> w.gate == Some(t) && spent.value in w.server.consumed)
    && pair.access in w.server.access && pair.refresh in w.server.refresh
    && IsUnseen(w, t, pair)
  }

  ghost predicate PlaceInv(w: World, t: Thread, place: Place) {
    match place
    case Trying(access) => access in w.server.access
    case Waiting(access) => access in w.server.access
    case Deciding(access) => access in w.server.access && w.gate == Some(t)
    case Choosing(access) =>
      w.gate == Some(t) && access in w.server.access && access !in w.rotations && w.access.Some?
    case Loaded(saved) => saved in w.server.refresh && !IsThreatened(w, t, saved)
    case Restoring => true
    case Refreshing(token, cause) =>
      && w.gate == Some(t) && token in w.server.refresh
      && (cause.Some? ==> cause.value in w.server.access && cause.value !in w.rotations)
    case Accepting(pair, spent, _) => IsPending(w, t, pair, spent)
    case Storing(pair, spent, _) => IsPending(w, t, pair, spent)
    case Clearing => w.gate == Some(t)
    case Forgetting => w.gate == Some(t)
    case Finishing => true
    case Idle => true
  }

  ghost predicate ThreadsInv(w: World) {
    forall t :: t in w.threads ==> PlaceInv(w, t, w.threads[t])
  }

  /** Whoever holds the gate is at a place it leaves the gate from. */
  predicate GateInv(w: World) {
    w.gate.Some? ==> match At(w, w.gate.value)
      case Deciding(_) => true
      case Choosing(_) => true
      case Restoring => true
      case Refreshing(_, _) => true
      case Accepting(_, spent, _) => spent.Some?
      case Storing(_, spent, _) => spent.Some?
      case Finishing => true
      case Clearing => true
      case Forgetting => true
      case _ => false
  }

  predicate IsBeingSaved(w: World, token: TokenHash) {
    w.gate.Some? && At(w, w.gate.value).Accepting? && At(w, w.gate.value).spent == Some(token)
  }

  /** The gate holder has rotated because of this access token and not yet replaced it. */
  predicate IsCause(w: World, access: TokenHash) {
    w.gate.Some? && match At(w, w.gate.value)
      case Accepting(_, spent, cause) => spent.Some? && cause == Some(access)
      case Storing(_, spent, cause) => spent.Some? && cause == Some(access)
      case _ => false
  }

  /** The session's refresh token is the server's current one unless the gate holder is replacing it. */
  ghost predicate SessionInv(w: World) {
    && (w.refresh.Some? ==> w.refresh.value in w.server.refresh || IsBeingReplaced(w, w.refresh.value))
    && (w.saved.Some? ==> w.saved.value in w.server.refresh || IsBeingSaved(w, w.saved.value))
    && (w.access.Some? ==> w.access.value in w.server.access && (w.access.value in w.rotations ==> IsCause(w, w.access.value)))
  }

  /** No access token has caused two rotations. */
  ghost predicate RotationInv(w: World) {
    && (forall i, j :: 0 <= i < j < |w.rotations| ==> w.rotations[i] != w.rotations[j])
    && (forall a :: a in w.rotations ==> a in w.server.access)
  }

  ghost predicate WorldInv(w: World) {
    Inv(w.server) && ThreadsInv(w) && GateInv(w) && SessionInv(w) && RotationInv(w)
  }

  // ----- every action keeps it -----

  /** A refresh token stays stored unless it is itself presented. */
  lemma OthersStayStored(s: SessionState, op: Op, now: Time, h: TokenHash)
    requires h in s.refresh && (op.Refresh? ==> op.token != h) && (op.LogOut? ==> op.token != h)
    ensures h in Step(s, op, now).refresh
  {
    match op {
      case Register(_, _, _, _, _, _, _) =>
      case Refresh(_, _) =>
      case LogOut(_) =>
      case _ =>
    }
  }

  /** The server has moved on: no access token is forgotten, and the client's refresh tokens are still stored, none of
      them revived. */
  ghost predicate ServerMoves(w: World, v: World) {
    && v == w.(server := v.server) && Inv(v.server)
    && w.server.access.Keys <= v.server.access.Keys && w.server.consumed.Keys <= v.server.consumed.Keys
    && (forall h :: h in w.server.refresh && Knows(w, h) ==>
          h in v.server.refresh && (IsRefreshable(v.server, h) ==> IsRefreshable(w.server, h)))
  }

  lemma HolderSurvives(w: World, v: World)
    requires WorldInv(w) && ServerMoves(w, v) && CanLeaveSession(v)
    ensures CanLeaveSession(w)
  {
    if w.gate.Some? && At(w, w.gate.value).Refreshing? {
      assert PlaceInv(w, w.gate.value, w.threads[w.gate.value]);
      assert Carries(w.threads[w.gate.value], w.threads[w.gate.value].token);
    }
  }

  lemma PlaceSurvives(w: World, v: World, t: Thread)
    requires ThreadsInv(w) && ServerMoves(w, v) && t in w.threads && (CanLeaveSession(v) ==> CanLeaveSession(w))
    ensures PlaceInv(v, t, v.threads[t])
  {
    assert PlaceInv(w, t, w.threads[t]);
    assert forall h: TokenHash :: Carries(w.threads[t], h) ==> Knows(w, h);
    forall h: TokenHash, u ensures IsCarriedBeside(v, u, h) == IsCarriedBeside(w, u, h) {
    }
  }

  lemma ServerMoveKeeps(w: World, v: World)
    requires WorldInv(w) && ServerMoves(w, v)
    ensures WorldInv(v)
  {
    if CanLeaveSession(v) {
      HolderSurvives(w, v);
    }
    forall t | t in v.threads ensures PlaceInv(v, t, v.threads[t]) {
      PlaceSurvives(w, v, t);
    }
  }

  lemma ElsewhereKeeps(w: World, op: Op, now: Time)
    requires WorldInv(w) && Enabled(w, Elsewhere(op, now))
    ensures WorldInv(Next(w, Elsewhere(op, now)))
  {
    StepKeeps(w.server, op, now);
    var v := Next(w, Elsewhere(op, now));
    forall h | h in w.server.refresh && Knows(w, h)
      ensures h in v.server.refresh && (IsRefreshable(v.server, h) ==> IsRefreshable(w.server, h))
    {
      OthersStayStored(w.server, op, now, h);
      assert h !in v.server.consumed && Ages(w.server.refresh[h], v.server.refresh[h]);
    }
    ServerMoveKeeps(w, v);
  }

  /** A thread at the gate takes up the session's refresh token, which a restore would have had to fear. */
  predicate TakesSession(w: World, t: Thread) {
    w.gate == Some(t) && (At(w, t).Restoring? || (At(w, t).Choosing? && w.access.Some?))
  }

  /** One thread moves on without changing the session: it may take the free gate or drop its own. */
  ghost predicate IsMove(w: World, v: World, t: Thread) {
    && v == w.(threads := v.threads, gate := v.gate) && v.threads.Keys == w.threads.Keys + {t}
    && (forall x :: x in w.threads && x != t ==> v.threads[x] == w.threads[x])
    && (v.gate == w.gate || (w.gate.None? && v.gate == Some(t)) || (w.gate == Some(t) && v.gate.None?))
    && (forall a: TokenHash :: MentionsAccess(v.threads[t], a) ==> MentionsAccess(At(w, t), a) || w.access == Some(a))
    && (forall h: TokenHash :: Carries(v.threads[t], h) ==> Carries(At(w, t), h) || (w.refresh == Some(h) && TakesSession(w, t)))
    && (v.threads[t].Restoring? ==> At(w, t).Restoring?)
    && !At(w, t).Accepting? && !At(w, t).Storing? && !v.threads[t].Accepting? && !v.threads[t].Storing?
    && (CanLeaveSession(v) ==> CanLeaveSession(w))
  }

  lemma FearKeeps(w: World, v: World, t: Thread, u: Thread, token: TokenHash)
    requires IsMove(w, v, t) && u != t && IsThreatened(v, u, token)
    ensures IsThreatened(w, u, token)
  {
    if IsBeingReplaced(v, token) {
      assert IsBeingReplaced(w, token);
    } else if IsCarriedBeside(v, u, token) {
      var x :| x in v.threads && x != u && Carries(v.threads[x], token);
      assert x != t ==> x in w.threads && Carries(w.threads[x], token);
    } else if IsRestoringBeside(v, u) {
      var x :| x in v.threads && x != u && v.threads[x].Restoring?;
      assert x in w.threads && w.threads[x].Restoring?;
    }
  }

  lemma OthersKeep(w: World, v: World, t: Thread, u: Thread)
    requires ThreadsInv(w) && IsMove(w, v, t) && u in w.threads && u != t
    ensures PlaceInv(v, u, v.threads[u])
  {
    assert PlaceInv(w, u, w.threads[u]);
    match w.threads[u] {
      case Loaded(saved) =>
        if IsThreatened(v, u, saved) {
          FearKeeps(w, v, t, u, saved);
        }
      case Accepting(pair, _, _) => UnseenKeeps(w, v, t, u, pair);
      case Storing(pair, _, _) => UnseenKeeps(w, v, t, u, pair);
      case _ =>
    }
  }

  lemma UnseenKeeps(w: World, v: World, t: Thread, u: Thread, pair: Pair)
    requires IsMove(w, v, t) && u != t && IsUnseen(w, u, pair)
    ensures IsUnseen(v, u, pair)
  {
    if IsCarriedBeside(v, u, pair.refresh) {
      var x :| x in v.threads && x != u && Carries(v.threads[x], pair.refresh);
      assert x != t ==> x in w.threads && Carries(w.threads[x], pair.refresh);
    }
  }

  lemma MoveKeeps(w: World, v: World, t: Thread)
    requires WorldInv(w) && IsMove(w, v, t) && GateInv(v)
    requires PlaceInv(v, t, v.threads[t])
    ensures WorldInv(v)
  {
    forall u | u in v.threads ensures PlaceInv(v, u, v.threads[u]) {
      if u != t {
        OthersKeep(w, v, t, u);
      }
    }
  }

  lemma BeginKeeps(w: World, t: Thread)
    requires WorldInv(w) && Enabled(w, Begin(t))
    ensures WorldInv(Next(w, Begin(t)))
  {
    MoveKeeps(w, Next(w, Begin(t)), t);
  }

  lemma AnswerKeeps(w: World, t: Thread, unauthorized: bool)
    requires WorldInv(w) && Enabled(w, Answer(t, unauthorized))
    ensures WorldInv(Next(w, Answer(t, unauthorized)))
  {
    assert PlaceInv(w, t, w.threads[t]);
    MoveKeeps(w, Next(w, Answer(t, unauthorized)), t);
  }

  lemma AcquireKeeps(w: World, t: Thread)
    requires WorldInv(w) && Enabled(w, Acquire(t))
    ensures WorldInv(Next(w, Acquire(t)))
  {
    assert PlaceInv(w, t, w.threads[t]);
    MoveKeeps(w, Next(w, Acquire(t)), t);
  }

  lemma FinishKeeps(w: World, t: Thread)
    requires WorldInv(w) && Enabled(w, Finish(t))
    ensures WorldInv(Next(w, Finish(t)))
  {
    MoveKeeps(w, Next(w, Finish(t)), t);
  }

  lemma DecideKeeps(w: World, t: Thread)
    requires WorldInv(w) && Enabled(w, Decide(t))
    ensures WorldInv(Next(w, Decide(t)))
  {
    assert PlaceInv(w, t, w.threads[t]);
    MoveKeeps(w, Next(w, Decide(t)), t);
  }

  lemma ReadRefreshKeeps(w: World, t: Thread)
    requires WorldInv(w) && Enabled(w, ReadRefresh(t))
    ensures WorldInv(Next(w, ReadRefresh(t)))
  {
    assert PlaceInv(w, t, w.threads[t]);
    MoveKeeps(w, Next(w, ReadRefresh(t)), t);
  }

  /** A careful load is seen by nobody: the token it takes is carried by no other thread that could still use it. */
  lemma LoadKeeps(w: World, t: Thread)
    requires WorldInv(w) && Enabled(w, Load(t)) && IsCareful(w, Load(t))
    ensures WorldInv(Next(w, Load(t)))
  {
    var v := Next(w, Load(t));
    var token := w.saved.value;
    assert !IsThreatened(w, t, token);
    forall u | u in v.threads ensures PlaceInv(v, u, v.threads[u]) {
      if u == t {
        LoaderKeeps(w, t);
      } else {
        LoadSeenBy(w, t, u);
      }
    }
  }

  lemma LoaderKeeps(w: World, t: Thread)
    requires WorldInv(w) && Enabled(w, Load(t)) && IsCareful(w, Load(t))
    ensures var v := Next(w, Load(t)); PlaceInv(v, t, v.threads[t])
  {
    var v := Next(w, Load(t));
    var token := w.saved.value;
    assert !IsCarriedBeside(w, t, token) || !IsRefreshable(w.server, token);
    assert IsRestoringBeside(v, t) ==> IsRestoringBeside(w, t);
  }

  lemma LoadSeenBy(w: World, t: Thread, u: Thread)
    requires ThreadsInv(w) && Enabled(w, Load(t)) && IsCareful(w, Load(t)) && u in w.threads && u != t
    ensures var v := Next(w, Load(t)); PlaceInv(v, u, v.threads[u])
  {
    var v := Next(w, Load(t));
    var token := w.saved.value;
    assert PlaceInv(w, u, w.threads[u]);
    assert Carries(w.threads[u], token) ==> IsCarriedBeside(w, t, token);
    forall h | h != token && IsCarriedBeside(v, u, h) ensures IsCarriedBeside(w, u, h) {
      var x :| x in v.threads && x != u && Carries(v.threads[x], h);
      assert x in w.threads && Carries(w.threads[x], h);
    }
    assert IsRestoringBeside(v, u) ==> IsRestoringBeside(w, u);
  }

  /** The adopted token becomes the session's; no other thread that could use it carries it. */
  lemma AdoptKeeps(w: World, t: Thread)
    requires WorldInv(w) && Enabled(w, Adopt(t))
    ensures WorldInv(Next(w, Adopt(t)))
  {
    assert PlaceInv(w, t, w.threads[t]);
    var v := Next(w, Adopt(t));
    forall u | u in v.threads ensures PlaceInv(v, u, v.threads[u]) {
      if u != t {
        AdoptSeenBy(w, t, u);
      }
    }
  }

  lemma AdoptSeenBy(w: World, t: Thread, u: Thread)
    requires ThreadsInv(w) && Enabled(w, Adopt(t)) && u in w.threads && u != t
    ensures var v := Next(w, Adopt(t)); PlaceInv(v, u, v.threads[u])
  {
    assert PlaceInv(w, t, w.threads[t]) && PlaceInv(w, u, w.threads[u]);
    var v := Next(w, Adopt(t));
    var token := At(w, t).saved;
    assert Carries(w.threads[u], token) ==> IsCarriedBeside(w, t, token);
    forall h | IsCarriedBeside(v, u, h) ensures IsCarriedBeside(w, u, h) {
      var x :| x in v.threads && x != u && Carries(v.threads[x], h);
      assert x in w.threads && Carries(w.threads[x], h);
    }
  }

  lemma ClearKeeps(w: World, t: Thread)
    requires WorldInv(w) && Enabled(w, Clear(t))
    ensures WorldInv(Next(w, Clear(t)))
  {
    assert PlaceInv(w, t, w.threads[t]);
    var v := Next(w, Clear(t));
    forall u | u in v.threads ensures PlaceInv(v, u, v.threads[u]) {
      if u != t {
        ClearSeenBy(w, t, u);
      }
    }
  }

  lemma ClearSeenBy(w: World, t: Thread, u: Thread)
    requires ThreadsInv(w) && Enabled(w, Clear(t)) && u in w.threads && u != t
    ensures var v := Next(w, Clear(t)); PlaceInv(v, u, v.threads[u])
  {
    assert PlaceInv(w, t, w.threads[t]) && PlaceInv(w, u, w.threads[u]);
    var v := Next(w, Clear(t));
    forall h | IsCarriedBeside(v, u, h) ensures IsCarriedBeside(w, u, h) {
      var x :| x in v.threads && x != u && Carries(v.threads[x], h);
      assert x in w.threads && Carries(w.threads[x], h);
    }
  }

  /** The credential goes, and the gate with it; the session may have been replaced meanwhile. */
  lemma ForgetKeeps(w: World, t: Thread)
    requires WorldInv(w) && Enabled(w, Forget(t))
    ensures WorldInv(Next(w, Forget(t)))
  {
    assert PlaceInv(w, t, w.threads[t]);
    var left := Leave(w, t);
    MoveKeeps(w, left, t);
    var v := Next(w, Forget(t));
    forall u | u in v.threads ensures PlaceInv(v, u, v.threads[u]) {
      assert PlaceInv(left, u, left.threads[u]);
      assert forall h: TokenHash :: IsCarriedBeside(v, u, h) == IsCarriedBeside(left, u, h);
    }
  }

  lemma SaveKeeps(w: World, t: Thread)
    requires WorldInv(w) && Enabled(w, Save(t))
    ensures WorldInv(Next(w, Save(t)))
  {
    var v := Next(w, Save(t));
    forall u | u in v.threads ensures PlaceInv(v, u, v.threads[u]) {
      SavingSeenBy(w, t, u);
    }
    assert PlaceInv(w, t, w.threads[t]);
  }

  lemma SavingSeenBy(w: World, t: Thread, u: Thread)
    requires ThreadsInv(w) && At(w, t).Accepting? && u in w.threads
    ensures var v := Next(w, Save(t)); PlaceInv(v, u, v.threads[u])
  {
    assert PlaceInv(w, u, w.threads[u]);
    var v := Next(w, Save(t));
    forall h | IsCarriedBeside(v, u, h) ensures IsCarriedBeside(w, u, h) {
      var x :| x in v.threads && x != u && Carries(v.threads[x], h);
      assert x in w.threads && Carries(w.threads[x], h);
    }
    assert IsRestoringBeside(v, u) ==> IsRestoringBeside(w, u);
  }

  lemma StoreKeeps(w: World, t: Thread)
    requires WorldInv(w) && Enabled(w, Store(t))
    ensures WorldInv(Next(w, Store(t)))
  {
    assert PlaceInv(w, t, w.threads[t]);
    var v := Next(w, Store(t));
    forall u | u in v.threads ensures PlaceInv(v, u, v.threads[u]) {
      if u != t {
        StoringSeenBy(w, t, u);
      }
    }
  }

  lemma StoringSeenBy(w: World, t: Thread, u: Thread)
    requires ThreadsInv(w) && Enabled(w, Store(t)) && u in w.threads && u != t
    ensures var v := Next(w, Store(t)); PlaceInv(v, u, v.threads[u])
  {
    assert PlaceInv(w, u, w.threads[u]) && PlaceInv(w, t, w.threads[t]);
    var v := Next(w, Store(t));
    assert IsCarriedBeside(w, u, At(w, t).pair.refresh) && MentionsAccess(w.threads[t], At(w, t).pair.access);
    forall h | IsCarriedBeside(v, u, h) ensures IsCarriedBeside(w, u, h) {
      var x :| x in v.threads && x != u && Carries(v.threads[x], h);
      assert x in w.threads && Carries(w.threads[x], h);
    }
  }

  /** What a rotation leaves of the server, as the client sees it. */
  lemma RotationStores(s: SessionState, token: TokenHash, pair: Pair, now: Time)
    requires Inv(s) && IsNewPair(s, pair) && token in s.refresh
    ensures var r := Rotate(s, token, pair, now);
            r.Ok? ==>
              && r.value.1.Session? && Inv(r.value.0)
              && r.value.0.access.Keys == s.access.Keys + {pair.access}
              && r.value.0.refresh.Keys == s.refresh.Keys - {token} + {pair.refresh}
              && r.value.0.consumed.Keys == s.consumed.Keys + {token}
  {
    RotateKeeps(s, token, pair, now);
  }

  lemma RotationRevivesNone(s: SessionState, token: TokenHash, pair: Pair, now: Time)
    requires token in s.refresh && token !in s.consumed && IsNewPair(s, pair)
    ensures var r := Rotate(s, token, pair, now);
            r.Ok? ==>
              && IsRefreshable(s, token)
              && forall h :: h in s.refresh && h != token ==> (IsRefreshable(r.value.0, h) <==> IsRefreshable(s, h))
  {
  }

  /** A thread has rotated the token it held: its place, the server's tables and the record of causes have changed. */
  ghost predicate HasRotated(w: World, v: World, t: Thread, pair: Pair) {
    && At(w, t).Refreshing? && IsNewPair(w.server, pair)
    && v == w.(server := v.server, threads := v.threads, rotations := v.rotations)
    && v.threads == w.threads[t := Accepting(pair, Some(At(w, t).token), At(w, t).cause)]
    && v.rotations == (if At(w, t).cause.Some? then w.rotations + [At(w, t).cause.value] else w.rotations)
    && v.server.access.Keys == w.server.access.Keys + {pair.access}
    && v.server.refresh.Keys == w.server.refresh.Keys - {At(w, t).token} + {pair.refresh}
    && v.server.consumed.Keys == w.server.consumed.Keys + {At(w, t).token}
    && IsRefreshable(w.server, At(w, t).token)
    && forall h :: h in w.server.refresh && h != At(w, t).token ==> (IsRefreshable(v.server, h) <==> IsRefreshable(w.server, h))
  }

  lemma RotatedPlaceKeeps(w: World, v: World, t: Thread, u: Thread, pair: Pair)
    requires ThreadsInv(w) && HasRotated(w, v, t, pair) && u in w.threads && u != t
    ensures PlaceInv(v, u, v.threads[u])
    ensures !MentionsAccess(v.threads[u], pair.access) && !Carries(v.threads[u], pair.refresh)
  {
    assert PlaceInv(w, u, w.threads[u]) && PlaceInv(w, t, w.threads[t]);
    assert IsCarriedBeside(w, u, At(w, t).token);
    forall h | IsCarriedBeside(v, u, h) ensures IsCarriedBeside(w, u, h) || h == pair.refresh {
      var x :| x in v.threads && x != u && Carries(v.threads[x], h);
      assert x in w.threads && (x != t ==> Carries(w.threads[x], h));
    }
  }

  /** The session's token is the one just presented or another stored one; the cause has rotated for the first time. */
  lemma RotatedSessionKeeps(w: World, v: World, t: Thread, pair: Pair)
    requires SessionInv(w) && RotationInv(w) && HasRotated(w, v, t, pair) && PlaceInv(w, t, At(w, t))
    ensures SessionInv(v) && RotationInv(v) && GateInv(v)
  {
  }

  lemma RotatedKeeps(w: World, v: World, t: Thread, pair: Pair)
    requires WorldInv(w) && HasRotated(w, v, t, pair) && Inv(v.server)
    ensures WorldInv(v)
  {
    assert PlaceInv(w, t, w.threads[t]);
    RotatedSessionKeeps(w, v, t, pair);
    RotatedThreadsKeep(w, v, t, pair);
  }

  lemma RotatedThreadsKeep(w: World, v: World, t: Thread, pair: Pair)
    requires ThreadsInv(w) && SessionInv(w) && RotationInv(w) && HasRotated(w, v, t, pair)
    ensures ThreadsInv(v)
  {
    assert PlaceInv(w, t, w.threads[t]);
    forall u | u in w.threads && u != t
      ensures PlaceInv(v, u, v.threads[u]) && !MentionsAccess(v.threads[u], pair.access) && !Carries(v.threads[u], pair.refresh)
    {
      RotatedPlaceKeeps(w, v, t, u, pair);
    }
    assert PlaceInv(v, t, v.threads[t]);
  }

  lemma ExchangeKeeps(w: World, t: Thread, pair: Pair, now: Time, persisted: bool)
    requires WorldInv(w) && Enabled(w, Exchange(t, pair, now, persisted))
    ensures WorldInv(Next(w, Exchange(t, pair, now, persisted)))
  {
    assert PlaceInv(w, t, w.threads[t]);
    var r := Rotate(w.server, At(w, t).token, pair, now);
    if persisted && r.Ok? {
      RotationStores(w.server, At(w, t).token, pair, now);
      RotationRevivesNone(w.server, At(w, t).token, pair, now);
      RotatedKeeps(w, Next(w, Exchange(t, pair, now, persisted)), t, pair);
    } else {
      MoveKeeps(w, Next(w, Exchange(t, pair, now, persisted)), t);
    }
  }

  lemma StartStores(s: SessionState, op: Op, now: Time)
    requires StartsSession(op) && Apply(s, op, now).Ok? && IsNewPair(s, op.pair)
    ensures var r := Apply(s, op, now);
            && r.value.1.Session? && r.value.1.issued.pair == op.pair
            && r.value.0.access.Keys == s.access.Keys + {op.pair.access}
            && r.value.0.refresh.Keys == s.refresh.Keys + {op.pair.refresh} && r.value.0.consumed == s.consumed
            && forall h :: h in s.refresh ==> (IsRefreshable(r.value.0, h) <==> IsRefreshable(s, h))
  {
  }

  /** No token of a pair the server has just made up is anywhere in the client. */
  lemma NewPairIsUnseen(w: World, pair: Pair, t: Thread)
    requires WorldInv(w) && IsNewPair(w.server, pair) && At(w, t).Idle?
    ensures w.access != Some(pair.access) && w.refresh != Some(pair.refresh) && pair.access !in w.rotations
    ensures forall x :: x in w.threads ==> !MentionsAccess(w.threads[x], pair.access) && !Carries(w.threads[x], pair.refresh)
  {
    if w.gate.Some? && w.gate.value in w.threads {
      assert PlaceInv(w, w.gate.value, w.threads[w.gate.value]);
    }
    forall x | x in w.threads ensures !MentionsAccess(w.threads[x], pair.access) && !Carries(w.threads[x], pair.refresh) {
      assert PlaceInv(w, x, w.threads[x]);
    }
  }

  lemma SignInKeeps(w: World, t: Thread, op: Op, now: Time)
    requires WorldInv(w) && Enabled(w, SignIn(t, op, now))
    ensures WorldInv(Next(w, SignIn(t, op, now)))
  {
    var r := Apply(w.server, op, now);
    if r.Ok? {
      StepKeeps(w.server, op, now);
      StartStores(w.server, op, now);
      var moved := w.(server := r.value.0);
      NewPairIsUnseen(w, op.pair, t);
      ServerMoveKeeps(w, moved);
      EnterKeeps(moved, t, op.pair);
    }
  }

  /** A new session is accepted, whatever the other threads are doing. */
  lemma EnterKeeps(w: World, t: Thread, pair: Pair)
    requires WorldInv(w) && At(w, t).Idle?
    requires w.access != Some(pair.access) && w.refresh != Some(pair.refresh) && pair.access !in w.rotations
    requires forall x :: x in w.threads ==> !MentionsAccess(w.threads[x], pair.access) && !Carries(w.threads[x], pair.refresh)
    requires pair.access in w.server.access && pair.refresh in w.server.refresh
    ensures WorldInv(Move(w, t, Accepting(pair, None, None)))
  {
    var v := Move(w, t, Accepting(pair, None, None));
    forall u | u in v.threads ensures PlaceInv(v, u, v.threads[u]) {
      if u != t {
        EnteringSeenBy(w, t, u, pair);
      }
    }
  }

  lemma EnteringSeenBy(w: World, t: Thread, u: Thread, pair: Pair)
    requires ThreadsInv(w) && GateInv(w) && At(w, t).Idle? && u in w.threads && u != t
    requires !MentionsAccess(w.threads[u], pair.access) && !Carries(w.threads[u], pair.refresh)
    ensures var v := Move(w, t, Accepting(pair, None, None)); PlaceInv(v, u, v.threads[u])
  {
    assert PlaceInv(w, u, w.threads[u]);
    var v := Move(w, t, Accepting(pair, None, None));
    forall h | IsCarriedBeside(v, u, h) ensures IsCarriedBeside(w, u, h) || h == pair.refresh {
      var x :| x in v.threads && x != u && Carries(v.threads[x], h);
      assert x != t ==> x in w.threads && Carries(w.threads[x], h);
    }
    assert IsRestoringBeside(v, u) ==> IsRestoringBeside(w, u);
  }

  /** Every action of every thread keeps the invariant, as long as no restore starts under threat. */
  lemma NextKeeps(w: World, action: Action)
    requires WorldInv(w) && Enabled(w, action) && IsCareful(w, action)
    ensures WorldInv(Next(w, action))
  {
    match action {
      case Begin(t) => BeginKeeps(w, t);
      case Answer(t, unauthorized) => AnswerKeeps(w, t, unauthorized);
      case Acquire(t) => AcquireKeeps(w, t);
      case Decide(t) => DecideKeeps(w, t);
      case Exchange(t, pair, now, persisted) => ExchangeKeeps(w, t, pair, now, persisted);
      case Save(t) => SaveKeeps(w, t);
      case Store(t) => StoreKeeps(w, t);
      case Finish(t) => FinishKeeps(w, t);
      case Clear(t) => ClearKeeps(w, t);
      case Forget(t) => ForgetKeeps(w, t);
      case Load(t) => LoadKeeps(w, t);
      case Adopt(t) => AdoptKeeps(w, t);
      case ReadRefresh(t) => ReadRefreshKeeps(w, t);
      case SignIn(t, op, now) => SignInKeeps(w, t, op, now);
      case Elsewhere(op, now) => ElsewhereKeeps(w, op, now);
    }
  }

  // ----- results -----

  ghost predicate Possible(w: World, actions: seq<Action>)
    decreases |actions|
  {
    actions == [] || (Enabled(w, actions[0]) && Possible(Next(w, actions[0]), actions[1..]))
  }

  function Run(w: World, actions: seq<Action>): World
    decreases |actions|
  {
    if actions == [] then w else Run(Next(w, actions[0]), actions[1..])
  }

  /** Every restore along a run starts unthreatened. */
  ghost predicate AllCareful(w: World, actions: seq<Action>)
    decreases |actions|
  {
    actions == [] || (IsCareful(w, actions[0]) && AllCareful(Next(w, actions[0]), actions[1..]))
  }

  lemma {:induction false} RunKeeps(w: World, actions: seq<Action>)
    requires WorldInv(w) && Possible(w, actions) && AllCareful(w, actions)
    ensures WorldInv(Run(w, actions))
    decreases |actions|
  {
    if actions != [] {
      NextKeeps(w, actions[0]);
      RunKeeps(Next(w, actions[0]), actions[1..]);
    }
  }

  /** In every interleaving, each access token causes at most one rotation, and whenever a thread is about to present
      a refresh token, that token is the server's current one of its family: reuse detection cannot be triggered. */
  lemma OneRotationAndNoReuse(w: World, actions: seq<Action>, t: Thread, pair: Pair, now: Time)
    requires WorldInv(w) && Possible(w, actions) && AllCareful(w, actions)
    ensures var v := Run(w, actions);
            && (forall i, j :: 0 <= i < j < |v.rotations| ==> v.rotations[i] != v.rotations[j])
            && (At(v, t).Refreshing? ==>
                  && At(v, t).token in v.server.refresh && At(v, t).token !in v.server.consumed
                  && (forall h :: h in v.server.refresh && v.server.refresh[h].family == v.server.refresh[At(v, t).token].family ==>
                        h == At(v, t).token)
                  && var r := Rotate(v.server, At(v, t).token, pair, now); r.Ok? ==> r.value.1.Session?)
  {
    RunKeeps(w, actions);
    var v := Run(w, actions);
    if At(v, t).Refreshing? {
      assert PlaceInv(v, t, v.threads[t]);
    }
  }

  /** A thread is between deciding to rotate and replacing the session. */
  predicate IsRotating(place: Place) {
    place.Choosing? || place.Refreshing? || (place.Accepting? && place.spent.Some?) || (place.Storing? && place.spent.Some?)
  }

  /** The gate is exclusive: no two threads are between deciding to rotate and replacing the session. */
  lemma GateIsExclusive(w: World, actions: seq<Action>, t: Thread, u: Thread)
    requires WorldInv(w) && Possible(w, actions) && AllCareful(w, actions)
    requires IsRotating(At(Run(w, actions), t)) && IsRotating(At(Run(w, actions), u))
    ensures t == u
  {
    RunKeeps(w, actions);
    var v := Run(w, actions);
    assert PlaceInv(v, t, v.threads[t]) && PlaceInv(v, u, v.threads[u]);
  }

  /** The client as it is launched, with what its credential store holds. */
  function Launch(server: SessionState, saved: Option<TokenHash>): World {
    World(server, None, None, saved, None, map[], [])
  }

  /** Nothing is under way and no session is held: the state in which the application restores a saved one. */
  ghost predicate IsStartup(w: World) {
    w.access.None? && w.gate.None? && forall u :: u in w.threads ==> w.threads[u].Idle?
  }

  /** Launching with a saved refresh token that is still stored, or with none, starts a good run. */
  lemma LaunchIsGood(server: SessionState, saved: Option<TokenHash>)
    requires Inv(server) && (saved.Some? ==> saved.value in server.refresh)
    ensures WorldInv(Launch(server, saved)) && IsStartup(Launch(server, saved))
  {
  }

  /** At startup no restore is threatened, after a failed one no more than at first. */
  lemma StartupIsSafe(w: World, u: Thread)
    requires IsStartup(w)
    ensures IsCareful(w, Load(u))
  {
  }

  /** Losing one reply is enough: if the server rotates and the client never hears, the token the client still holds is
      consumed, and its next refresh is taken for reuse. */
  lemma LostReplyTriggersReuse(w: World, t: Thread, pair: Pair, now: Time, next: Pair, later: Time)
    requires WorldInv(w) && At(w, t).Refreshing? && IsNewPair(w.server, pair)
    requires Rotate(w.server, At(w, t).token, pair, now).Ok?
    ensures var server := Rotate(w.server, At(w, t).token, pair, now).value.0;
            var r := Rotate(server, At(w, t).token, next, later);
            && r.Ok? && r.value.1 == Refused(RefreshTokenReuse)
            && IsDead(r.value.0, w.server.refresh[At(w, t).token].family)
  {
    assert PlaceInv(w, t, w.threads[t]);
  }
}
