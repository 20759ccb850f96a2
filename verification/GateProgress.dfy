/** What the refresh gate achieves: a refused request renews the session once, and a stale one leaves it alone. */
module GateProgress {
  import opened Domain
  import opened Sessions
  import SessionTheorems
  import SessionEffects
  import opened RefreshGate
  import opened LateRestore

  /** Refused with the session's own access token, a thread takes the gate, rotates the session's refresh token while it is good,
      and leaves the new pair in the session and its refresh token in the credential store. */
  lemma RefusedRequestRenews(w: World, t: Thread, pair: Pair, now: Time) returns (v: World)
    requires SessionTheorems.Inv(w.server) && w.gate.None? && At(w, t).Waiting? && w.access == Some(At(w, t).access)
    requires w.refresh.Some? && SessionEffects.IsGood(w.server, w.refresh.value, now) && IsNewPair(w.server, pair)
    ensures Leads(w, v) && v.gate.None? && At(v, t).Idle? && forall x: Thread :: x != t ==> At(v, x) == At(w, x)
    ensures v.access == Some(pair.access) && v.refresh == Some(pair.refresh) && v.saved == Some(pair.refresh)
    ensures v.rotations == w.rotations + [At(w, t).access]
    ensures Rotate(w.server, w.refresh.value, pair, now).Ok? && v.server == Rotate(w.server, w.refresh.value, pair, now).value.0
  {
    var reading := TakesSessionToken(w, t);
    var accepted := ExchangesToken(reading, t, pair, now);
    v := FinishStoring(accepted, t);
    LeadsOn(reading, accepted, v);
    LeadsOn(w, reading, v);
  }

  lemma ExchangesToken(w: World, t: Thread, pair: Pair, now: Time) returns (v: World)
    requires SessionTheorems.Inv(w.server) && At(w, t).Refreshing? && IsNewPair(w.server, pair)
    requires SessionEffects.IsGood(w.server, At(w, t).token, now)
    ensures Leads(w, v) && Rotate(w.server, At(w, t).token, pair, now).Ok?
    ensures v == Move(w, t, Accepting(pair, Some(At(w, t).token), At(w, t).cause))
                 .(server := Rotate(w.server, At(w, t).token, pair, now).value.0,
                   rotations := if At(w, t).cause.Some? then w.rotations + [At(w, t).cause.value] else w.rotations)
  {
    SessionEffects.RefreshIsExact(w.server, At(w, t).token, pair, now);
    LeadsNowhere(w);
    LeadsBy(w, w, Exchange(t, pair, now, true));
    v := Next(w, Exchange(t, pair, now, true));
  }

  /** It gets as far as holding the session's refresh token. */
  lemma TakesSessionToken(w: World, t: Thread) returns (v: World)
    requires w.gate.None? && At(w, t).Waiting? && w.access == Some(At(w, t).access) && w.refresh.Some?
    ensures Leads(w, v) && v == Move(w, t, Refreshing(w.refresh.value, Some(At(w, t).access))).(gate := Some(t))
  {
    LeadsNowhere(w);
    LeadsBy(w, w, Acquire(t));
    var deciding := Next(w, Acquire(t));
    LeadsBy(w, deciding, Decide(t));
    var choosing := Next(deciding, Decide(t));
    LeadsBy(w, choosing, ReadRefresh(t));
    v := Next(choosing, ReadRefresh(t));
  }

  /** If the session has another access token by then, somebody else has renewed it: nothing is rotated. */
  lemma StaleRequestRotatesNothing(w: World, t: Thread) returns (v: World)
    requires w.gate.None? && At(w, t).Waiting? && w.access != Some(At(w, t).access)
    ensures Leads(w, v) && v.gate.None? && At(v, t).Idle? && forall x: Thread :: x != t ==> At(v, x) == At(w, x)
    ensures v == w.(threads := v.threads)
  {
    LeadsNowhere(w);
    LeadsBy(w, w, Acquire(t));
    var deciding := Next(w, Acquire(t));
    LeadsBy(w, deciding, Decide(t));
    var finishing := Next(deciding, Decide(t));
    LeadsBy(w, finishing, Finish(t));
    v := Next(finishing, Finish(t));
  }

  /** If the server will not rotate the session's token, the session and the credential are given up. */
  lemma RefusedRefreshForgets(w: World, t: Thread, pair: Pair, now: Time) returns (v: World)
    requires SessionTheorems.Inv(w.server) && w.gate.None? && At(w, t).Waiting? && w.access == Some(At(w, t).access)
    requires w.refresh.Some? && !SessionEffects.IsGood(w.server, w.refresh.value, now) && IsNewPair(w.server, pair)
    ensures Leads(w, v) && v.gate.None? && At(v, t).Idle?
    ensures v.access.None? && v.refresh.None? && v.saved.None? && v.rotations == w.rotations
  {
    var reading := TakesSessionToken(w, t);
    SessionEffects.RefreshIsExact(w.server, w.refresh.value, pair, now);
    LeadsBy(w, reading, Exchange(t, pair, now, true));
    var clearing := Next(reading, Exchange(t, pair, now, true));
    LeadsBy(w, clearing, Clear(t));
    var forgetting := Next(clearing, Clear(t));
    LeadsBy(w, forgetting, Forget(t));
    v := Next(forgetting, Forget(t));
  }
}
