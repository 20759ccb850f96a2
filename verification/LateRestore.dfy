/** When restoring a saved session goes wrong: exactly when the saved token is threatened at the moment it is loaded. */
module LateRestore {
  import opened Domain
  import opened Sessions
  import SessionTheorems
  import opened RefreshGate

  /** Some thread is about to present a token the server has consumed: reuse detection will end the family. */
  ghost predicate PresentsConsumed(w: World) {
    exists t :: t in w.threads && w.threads[t].Refreshing? && w.threads[t].token in w.server.consumed
  }

  /** A run in which every further restore starts unthreatened. */
  ghost predicate IsPath(w: World, actions: seq<Action>, v: World) {
    AllCareful(w, actions) && Possible(w, actions) && Run(w, actions) == v
  }

  ghost predicate Leads(w: World, v: World) {
    exists actions :: IsPath(w, actions, v)
  }

  lemma LeadsNowhere(w: World)
    ensures Leads(w, w)
  {
    assert IsPath(w, [], w);
  }

  lemma {:induction false} RunJoins(w: World, first: seq<Action>, second: seq<Action>)
    requires Possible(w, first) && Possible(Run(w, first), second)
    requires AllCareful(w, first) && AllCareful(Run(w, first), second)
    ensures Possible(w, first + second) && AllCareful(w, first + second)
    ensures Run(w, first + second) == Run(Run(w, first), second)
    decreases |first|
  {
    if first == [] {
      assert first + second == second;
    } else {
      RunJoins(Next(w, first[0]), first[1..], second);
      assert (first + second)[1..] == first[1..] + second;
    }
  }

  lemma LeadsOn(w: World, v: World, x: World)
    requires Leads(w, v) && Leads(v, x)
    ensures Leads(w, x)
  {
    var first :| IsPath(w, first, v);
    var second :| IsPath(v, second, x);
    RunJoins(w, first, second);
    assert IsPath(w, first + second, x);
  }

  /** One more action at the end. */
  lemma LeadsBy(w: World, v: World, action: Action)
    requires Leads(w, v) && Enabled(v, action) && !action.Load?
    ensures Leads(w, Next(v, action))
  {
    OneStepPath(v, action);
    LeadsOn(w, v, Next(v, action));
  }

  lemma OneStepPath(v: World, action: Action)
    requires Enabled(v, action) && !action.Load?
    ensures Leads(v, Next(v, action))
  {
    var x := Next(v, action);
    var actions := [action];
    assert actions[0] == action && actions[1..] == [];
    assert Possible(x, []) && AllCareful(x, []) && Run(x, []) == x;
    assert IsCareful(v, action);
    assert Possible(v, actions) && AllCareful(v, actions) && Run(v, actions) == x;
    assert IsPath(v, actions, x);
  }

  // ----- fresh names and times -----

  /** A refreshable token can be rotated at some time with some new pair. */
  lemma CanRotate(s: SessionState, token: TokenHash) returns (pair: Pair, now: Time)
    requires SessionTheorems.Inv(s) && IsRefreshable(s, token)
    ensures IsNewPair(s, pair) && Rotate(s, token, pair, now).Ok? && Rotate(s, token, pair, now).value.1.Session?
  {
    var n := SomethingNew(s.access.Keys + s.refresh.Keys + s.consumed.Keys);
    pair, now := Pair(n, n), s.refresh[token].expiresAt - 1;
    assert SessionTheorems.IsBacked(s.refresh[token], s.accounts, s.devices);
  }

  // ----- ways to trouble -----

  /** The loaded token is consumed and the gate is free: adopting it is enough. */
  lemma PresentLoaded(w: World, u: Thread) returns (v: World)
    requires At(w, u).Loaded? && w.gate.None? && At(w, u).saved in w.server.consumed
    ensures Leads(w, v) && PresentsConsumed(v)
  {
    LeadsNowhere(w);
    LeadsBy(w, w, Adopt(u));
    var w1 := Next(w, Adopt(u));
    LeadsBy(w, w1, Acquire(u));
    var w2 := Next(w1, Acquire(u));
    LeadsBy(w, w2, ReadRefresh(u));
    v := Next(w2, ReadRefresh(u));
    assert v.threads[u] == Refreshing(At(w, u).saved, None);
  }

  /** A thread that is accepting a session goes on to store it and leave. */
  lemma FinishStoring(w: World, t: Thread) returns (v: World)
    requires At(w, t).Accepting? || At(w, t).Storing?
    ensures Leads(w, v) && v.server == w.server && At(v, t).Idle?
    ensures v.refresh == Some(At(w, t).pair.refresh) && v.access == Some(At(w, t).pair.access)
    ensures v.gate == if w.gate == Some(t) then None else w.gate
    ensures v.rotations == w.rotations && (At(w, t).Accepting? ==> v.saved == Some(At(w, t).pair.refresh))
    ensures forall x: Thread :: x != t ==> At(v, x) == At(w, x)
  {
    LeadsNowhere(w);
    var stored := w;
    if At(w, t).Accepting? {
      LeadsBy(w, w, Save(t));
      stored := Next(w, Save(t));
    }
    LeadsBy(w, stored, Store(t));
    var finishing := Next(stored, Store(t));
    LeadsBy(w, finishing, Finish(t));
    v := Next(finishing, Finish(t));
  }

  /** The gate holder has consumed the loaded token. */
  lemma AfterConsumed(w: World, u: Thread) returns (v: World)
    requires At(w, u).Loaded? && w.gate.Some? && IsBeingReplaced(w, At(w, u).saved) && At(w, u).saved in w.server.consumed
    ensures Leads(w, v) && PresentsConsumed(v)
  {
    var released := FinishStoring(w, w.gate.value);
    v := PresentLoaded(released, u);
    LeadsOn(w, released, v);
  }

  /** The gate holder is about to rotate the loaded token. */
  lemma AfterRefreshing(w: World, u: Thread, g: Thread) returns (v: World)
    requires SessionTheorems.Inv(w.server) && At(w, u).Loaded? && w.gate == Some(g) && At(w, g).Refreshing?
    requires At(w, g).token == At(w, u).saved && IsRefreshable(w.server, At(w, u).saved)
    ensures Leads(w, v) && PresentsConsumed(v)
  {
    var pair, now := CanRotate(w.server, At(w, u).saved);
    var rotate := Exchange(g, pair, now, true);
    LeadsNowhere(w);
    LeadsBy(w, w, rotate);
    v := AfterConsumed(Next(w, rotate), u);
    LeadsOn(w, Next(w, rotate), v);
  }

  /** The gate holder has decided to rotate the session's token, which is the loaded one. */
  lemma AfterChoosing(w: World, u: Thread, g: Thread) returns (v: World)
    requires SessionTheorems.Inv(w.server) && At(w, u).Loaded? && w.gate == Some(g) && At(w, g).Choosing?
    requires w.refresh == Some(At(w, u).saved) && IsRefreshable(w.server, At(w, u).saved)
    ensures Leads(w, v) && PresentsConsumed(v)
  {
    LeadsNowhere(w);
    LeadsBy(w, w, ReadRefresh(g));
    var reading := Next(w, ReadRefresh(g));
    v := AfterRefreshing(reading, u, g);
    LeadsOn(w, reading, v);
  }

  /** A session in use holds the loaded token and the gate is free: any thread can come to rotate it. */
  lemma AfterRequest(w: World, u: Thread) returns (v: World)
    requires SessionTheorems.Inv(w.server) && At(w, u).Loaded? && w.gate.None? && w.access.Some?
    requires w.refresh == Some(At(w, u).saved) && IsRefreshable(w.server, At(w, u).saved)
    ensures Leads(w, v) && PresentsConsumed(v)
  {
    var t := SomethingNew(w.threads.Keys);
    LeadsNowhere(w);
    LeadsBy(w, w, Begin(t));
    var w1 := Next(w, Begin(t));
    LeadsBy(w, w1, Answer(t, true));
    var w2 := Next(w1, Answer(t, true));
    LeadsBy(w, w2, Acquire(t));
    var w3 := Next(w2, Acquire(t));
    LeadsBy(w, w3, Decide(t));
    var w4 := Next(w3, Decide(t));
    v := AfterChoosing(w4, u, t);
    LeadsOn(w, w4, v);
  }

  /** Another restore at the free gate reads the session's token, which is the loaded one. */
  lemma AfterRestoring(w: World, u: Thread, t: Thread) returns (v: World)
    requires SessionTheorems.Inv(w.server) && At(w, u).Loaded? && At(w, t).Restoring? && (w.gate.None? || w.gate == Some(t))
    requires w.refresh == Some(At(w, u).saved) && IsRefreshable(w.server, At(w, u).saved)
    ensures Leads(w, v) && PresentsConsumed(v)
  {
    LeadsNowhere(w);
    var held := w;
    if w.gate.None? {
      LeadsBy(w, w, Acquire(t));
      held := Next(w, Acquire(t));
    }
    LeadsBy(w, held, ReadRefresh(t));
    var reading := Next(held, ReadRefresh(t));
    v := AfterRefreshing(reading, u, t);
    LeadsOn(w, reading, v);
  }

  // ----- releasing the gate -----

  /** Whoever holds the gate can leave it without any change to the server or to another thread. */
  lemma ReleaseGate(w: World) returns (v: World)
    requires GateInv(w)
    ensures Leads(w, v) && v.gate.None? && v.server == w.server
    ensures forall x: Thread :: w.gate != Some(x) ==> At(v, x) == At(w, x)
  {
    LeadsNowhere(w);
    v := w;
    if w.gate.Some? {
      var g := w.gate.value;
      match At(w, g) {
        case Deciding(_) =>
          LeadsBy(w, w, Decide(g));
          v := LeaveFrom(Next(w, Decide(g)), g);
          LeadsOn(w, Next(w, Decide(g)), v);
        case Accepting(_, _, _) => v := FinishStoring(w, g);
        case Storing(_, _, _) => v := FinishStoring(w, g);
        case _ => v := LeaveFrom(w, g);
      }
    }
  }

  lemma LeaveFrom(w: World, g: Thread) returns (v: World)
    requires w.gate == Some(g)
    requires match At(w, g)
             case Restoring => true
             case Choosing(_) => true
             case Refreshing(_, _) => true
             case Finishing => true
             case Clearing => true
             case Forgetting => true
             case _ => false
    ensures Leads(w, v) && v.gate.None? && v.server == w.server && At(v, g).Idle?
    ensures forall x: Thread :: x != g ==> At(v, x) == At(w, x)
  {
    LeadsNowhere(w);
    v := w;
    if At(v, g).Restoring? || At(v, g).Choosing? {
      LeadsBy(w, v, ReadRefresh(g));
      v := Next(v, ReadRefresh(g));
    }
    if At(v, g).Refreshing? {
      var n := SomethingNew(v.server.access.Keys + v.server.refresh.Keys + v.server.consumed.Keys);
      LeadsBy(w, v, Exchange(g, Pair(n, n), 0, false));
      v := Next(v, Exchange(g, Pair(n, n), 0, false));
    }
    if At(v, g).Clearing? {
      LeadsBy(w, v, Clear(g));
      v := Next(v, Clear(g));
    }
    if At(v, g).Forgetting? {
      LeadsBy(w, v, Forget(g));
      v := Next(v, Forget(g));
    }
    if At(v, g).Finishing? {
      LeadsBy(w, v, Finish(g));
      v := Next(v, Finish(g));
    }
  }

  // ----- every threat can come true -----

  /** A pending session with the loaded token becomes the session, and is then rotated. */
  lemma AfterPending(w: World, u: Thread, t: Thread) returns (v: World)
    requires SessionTheorems.Inv(w.server) && GateInv(w) && At(w, u).Loaded? && (At(w, t).Accepting? || At(w, t).Storing?)
    requires At(w, t).pair.refresh == At(w, u).saved && IsRefreshable(w.server, At(w, u).saved)
    ensures Leads(w, v) && PresentsConsumed(v)
  {
    var stored: World;
    if w.gate == Some(t) {
      stored := FinishStoring(w, t);
    } else {
      var released := ReleaseGate(w);
      stored := FinishStoring(released, t);
      LeadsOn(w, released, stored);
    }
    v := AfterRequest(stored, u);
    LeadsOn(w, stored, v);
  }

  /** Two restores have loaded the same token. */
  lemma AfterTwoLoads(w: World, u: Thread, t: Thread) returns (v: World)
    requires SessionTheorems.Inv(w.server) && GateInv(w) && t != u && At(w, u).Loaded? && At(w, t) == At(w, u)
    requires IsRefreshable(w.server, At(w, u).saved)
    ensures Leads(w, v) && PresentsConsumed(v)
  {
    var released := ReleaseGate(w);
    LeadsNowhere(released);
    LeadsBy(released, released, Adopt(t));
    var adopted := Next(released, Adopt(t));
    v := AfterRestoring(adopted, u, t);
    LeadsOn(released, adopted, v);
    LeadsOn(w, released, v);
  }

  /** The session holds the loaded token, and its gate can be left with it. */
  lemma AfterSession(w: World, u: Thread) returns (v: World)
    requires SessionTheorems.Inv(w.server) && GateInv(w) && At(w, u).Loaded? && IsRefreshable(w.server, At(w, u).saved)
    requires w.refresh == Some(At(w, u).saved) && CanLeaveSession(w) && (w.access.Some? || IsRestoringBeside(w, u))
    ensures Leads(w, v) && PresentsConsumed(v)
  {
    LeadsNowhere(w);
    if w.gate.None? {
      v := AfterFreeGate(w, u);
    } else {
      var g := w.gate.value;
      match At(w, g) {
        case Restoring => v := AfterRestoring(w, u, g);
        case Choosing(_) => v := AfterChoosing(w, u, g);
        case Forgetting =>
          LeadsBy(w, w, Forget(g));
          var forgotten := Next(w, Forget(g));
          if IsRestoringBeside(w, u) {
            RestoringStays(w, forgotten, u, g);
          }
          v := AfterFreeGate(forgotten, u);
          LeadsOn(w, forgotten, v);
        case Refreshing(token, _) =>
          if token == At(w, u).saved {
            v := AfterRefreshing(w, u, g);
          } else {
            var pair, now := CanRotate(w.server, token);
            var give := Exchange(g, pair, now, false);
            LeadsBy(w, w, give);
            if IsRestoringBeside(w, u) {
              RestoringStays(w, Next(w, give), u, g);
            }
            v := AfterFreeGate(Next(w, give), u);
            LeadsOn(w, Next(w, give), v);
          }
        case Deciding(_) =>
          LeadsBy(w, w, Decide(g));
          var decided := Next(w, Decide(g));
          if At(decided, g).Choosing? {
            v := AfterChoosing(decided, u, g);
          } else {
            if IsRestoringBeside(w, u) {
              RestoringStays(w, decided, u, g);
            }
            v := AfterFinishing(decided, u, g);
          }
          LeadsOn(w, decided, v);
        case _ => v := AfterFinishing(w, u, g);
      }
    }
  }

  lemma RestoringStays(w: World, v: World, u: Thread, g: Thread)
    requires IsRestoringBeside(w, u) && !At(w, g).Restoring? && w.threads.Keys <= v.threads.Keys
    requires forall x: Thread :: x != g ==> At(v, x) == At(w, x)
    ensures IsRestoringBeside(v, u)
  {
    var t :| t in w.threads && t != u && w.threads[t].Restoring?;
    assert At(v, t).Restoring?;
  }

  lemma AfterFinishing(w: World, u: Thread, g: Thread) returns (v: World)
    requires SessionTheorems.Inv(w.server) && At(w, u).Loaded? && IsRefreshable(w.server, At(w, u).saved)
    requires w.refresh == Some(At(w, u).saved) && (w.access.Some? || IsRestoringBeside(w, u))
    requires w.gate == Some(g) && At(w, g).Finishing?
    ensures Leads(w, v) && PresentsConsumed(v)
  {
    LeadsNowhere(w);
    LeadsBy(w, w, Finish(g));
    var released := Next(w, Finish(g));
    if IsRestoringBeside(w, u) {
      RestoringStays(w, released, u, g);
    }
    v := AfterFreeGate(released, u);
    LeadsOn(w, released, v);
  }

  lemma AfterFreeGate(w: World, u: Thread) returns (v: World)
    requires SessionTheorems.Inv(w.server) && At(w, u).Loaded? && IsRefreshable(w.server, At(w, u).saved) && w.gate.None?
    requires w.refresh == Some(At(w, u).saved) && (w.access.Some? || IsRestoringBeside(w, u))
    ensures Leads(w, v) && PresentsConsumed(v)
  {
    if w.access.Some? {
      v := AfterRequest(w, u);
    } else {
      var t :| t in w.threads && t != u && w.threads[t].Restoring?;
      v := AfterRestoring(w, u, t);
    }
  }

  /** A restore that starts under threat can always go wrong. */
  lemma ThreatComesTrue(w: World, u: Thread) returns (v: World)
    requires WorldInv(w) && At(w, u).Idle? && w.saved.Some? && IsThreatened(w, u, w.saved.value)
    ensures Leads(Next(w, Load(u)), v) && PresentsConsumed(v)
  {
    var token := w.saved.value;
    var loaded := Next(w, Load(u));
    if IsBeingReplaced(w, token) {
      assert PlaceInv(w, w.gate.value, w.threads[w.gate.value]);
      v := AfterConsumed(loaded, u);
    } else if IsCarriedBeside(w, u, token) {
      var t :| t in w.threads && t != u && Carries(w.threads[t], token);
      assert PlaceInv(w, t, w.threads[t]);
      match w.threads[t] {
        case Loaded(_) => v := AfterTwoLoads(loaded, u, t);
        case Refreshing(_, _) => v := AfterRefreshing(loaded, u, t);
        case Accepting(_, _, _) => v := AfterPending(loaded, u, t);
        case Storing(_, _, _) => v := AfterPending(loaded, u, t);
      }
    } else {
      if IsRestoringBeside(w, u) {
        RestoringStays(w, loaded, u, u);
      }
      v := AfterSession(loaded, u);
    }
  }

  // ----- results -----

  /** Restoring the saved session now can, in some interleaving whose further restores are unthreatened, end with a
      consumed token being presented, if and only if the saved token is threatened now. */
  lemma RestoreGoesWrongExactly(w: World, u: Thread)
    requires WorldInv(w) && Enabled(w, Load(u))
    ensures (exists v :: Leads(Next(w, Load(u)), v) && PresentsConsumed(v)) <==> IsThreatened(w, u, w.saved.value)
  {
    var loaded := Next(w, Load(u));
    if IsThreatened(w, u, w.saved.value) {
      var v := ThreatComesTrue(w, u);
    } else {
      LoadKeeps(w, u);
      forall v | Leads(loaded, v) ensures !PresentsConsumed(v) {
        var actions :| IsPath(loaded, actions, v);
        RunKeeps(loaded, actions);
        forall t | t in v.threads && v.threads[t].Refreshing? ensures v.threads[t].token !in v.server.consumed {
          assert PlaceInv(v, t, v.threads[t]);
        }
      }
    }
  }

  /** Presenting a consumed token is refused and ends its family. */
  lemma PresentingEndsTheFamily(w: World, pair: Pair, now: Time) returns (t: Thread)
    requires PresentsConsumed(w)
    ensures At(w, t).Refreshing? && At(w, t).token in w.server.consumed
    ensures var r := Rotate(w.server, At(w, t).token, pair, now);
            r.Ok? && r.value.1 == Refused(RefreshTokenReuse) && SessionTheorems.IsDead(r.value.0, w.server.consumed[At(w, t).token])
  {
    t :| t in w.threads && w.threads[t].Refreshing? && w.threads[t].token in w.server.consumed;
    SessionTheorems.RevokeIsExact(w.server, OfFamily(w.server.consumed[At(w, t).token]), At(w, t).token);
  }

  function FirstSession(): Op {
    Register("a@example.org", "a", "secret", 1, 1, 1, Pair(1, 2))
  }

  lemma FirstSignIn()
    ensures Enabled(Launch(NOBODY, None), SignIn(0, FirstSession(), 0))
    ensures var w := Next(Launch(NOBODY, None), SignIn(0, FirstSession(), 0));
            && w == Move(Launch(w.server, None), 0, Accepting(Pair(1, 2), None, None))
            && IsRefreshable(w.server, 2)
  {
  }

  lemma SigningIn() returns (w: World)
    ensures Leads(Launch(NOBODY, None), w) && WorldInv(w) && w.threads == map[0 := Storing(Pair(1, 2), None, None)]
    ensures w.gate.None? && w.saved == Some(2) && IsRefreshable(w.server, 2)
  {
    var launched := Launch(NOBODY, None);
    LaunchIsGood(NOBODY, None);
    FirstSignIn();
    LeadsNowhere(launched);
    LeadsBy(launched, launched, SignIn(0, FirstSession(), 0));
    SignInKeeps(launched, 0, FirstSession(), 0);
    var entered := Next(launched, SignIn(0, FirstSession(), 0));
    LeadsBy(launched, entered, Save(0));
    SaveKeeps(entered, 0);
    w := Next(entered, Save(0));
  }

  /** A client launched without a saved session, that signs in, is then in such a state: restoring once more can end the
      session. */
  lemma LateRestoreIsReachable(u: Thread) returns (w: World, v: World)
    ensures Leads(Launch(NOBODY, None), w) && Enabled(w, Load(u)) && IsThreatened(w, u, w.saved.value)
    ensures Leads(Next(w, Load(u)), v) && PresentsConsumed(v)
  {
    var saved := SigningIn();
    LeadsBy(Launch(NOBODY, None), saved, Store(0));
    StoreKeeps(saved, 0);
    var stored := Next(saved, Store(0));
    LeadsBy(Launch(NOBODY, None), stored, Finish(0));
    FinishKeeps(stored, 0);
    w := Next(stored, Finish(0));
    v := ThreatComesTrue(w, u);
  }
}
