/** When each session operation succeeds, spelled out on the state, and what it then changes. */
module SessionEffects {
  import opened Domain
  import opened Sessions
  import opened SessionTheorems

  // ----- refreshing -----

  /** A refresh token is good while it is stored, unrevoked and unexpired. */
  predicate IsGood(s: SessionState, token: TokenHash, now: Time) {
    token in s.refresh && !s.refresh[token].revoked && s.refresh[token].expiresAt > now
  }

  /** A refresh issues a session exactly for a good token; a consumed one is refused as reused, an unknown one is unauthorized,
      and a revoked or expired one has expired. The check of the account never decides. */
  lemma RefreshIsExact(s: SessionState, token: TokenHash, pair: Pair, now: Time)
    requires Inv(s)
    ensures var r := Rotate(s, token, pair, now);
            && (r.Ok? && r.value.1.Session? <==> IsGood(s, token, now))
            && (r.Ok? && !r.value.1.Session? <==> token in s.consumed)
            && (token in s.consumed ==> r.Ok? && r.value.1 == Refused(RefreshTokenReuse))
            && (token !in s.consumed && token !in s.refresh ==> r == Err(Unauthorized))
            && (token in s.refresh && !IsGood(s, token, now) ==> r == Err(SessionExpired))
  {
    if token in s.refresh {
      assert IsBacked(s.refresh[token], s.accounts, s.devices);
    }
  }

  lemma ReachableRefreshIsExact(calls: seq<Call>, token: TokenHash, pair: Pair, now: Time)
    requires Possible(NOBODY, calls)
    ensures var s := Run(NOBODY, calls);
            var r := Rotate(s, token, pair, now);
            && (r.Ok? && r.value.1.Session? <==> IsGood(s, token, now))
            && (r.Err? ==> r.error == if token in s.refresh then SessionExpired else Unauthorized)
  {
    RunKeeps(NOBODY, calls);
    RefreshIsExact(Run(NOBODY, calls), token, pair, now);
  }

  /** A refresh continues the session of its token: the same user, device and family, a quarter of an hour of access and thirty
      days of refreshing. Nothing else is issued, and no other token, device or account changes. */
  lemma RefreshContinues(s: SessionState, token: TokenHash, pair: Pair, now: Time, h: TokenHash)
    requires Inv(s) && IsNewPair(s, pair) && IsGood(s, token, now)
    ensures Rotate(s, token, pair, now).Ok? && Rotate(s, token, pair, now).value.1.Session?
    ensures var (t, answer) := Rotate(s, token, pair, now).value;
            var record := s.refresh[token];
            && answer.issued == Issued(pair, record.user, record.device, record.family)
            && pair.access in t.access && t.access[pair.access] == Token(record.user, record.device, record.family, now + 900, false)
            && pair.refresh in t.refresh
            && t.refresh[pair.refresh] == Token(record.user, record.device, record.family, now + 2592000, false)
            && (h != pair.access ==> (h in t.access <==> h in s.access) && (h in s.access ==> t.access[h] == s.access[h]))
            && (h != pair.refresh ==> (h in t.refresh <==> h in s.refresh && h != token)
                                      && (h in t.refresh ==> t.refresh[h] == s.refresh[h]))
            && t.accounts == s.accounts && t.devices == s.devices
  {
    RefreshIsExact(s, token, pair, now);
  }

  /** What a sign-in or a refresh issues can be refreshed for thirty days, and used for a quarter of an hour. */
  lemma IssuedSessionsRefresh(s: SessionState, op: Op, now: Time, next: Pair, later: Time)
    requires Inv(s) && IsFresh(s, op) && Apply(s, op, now).Ok? && Apply(s, op, now).value.1.Session?
    ensures var (t, answer) := Apply(s, op, now).value;
            var r := Rotate(t, answer.issued.pair.refresh, next, later);
            && (r.Ok? && r.value.1.Session? <==> later < now + 30 * 86400)
            && (Authenticate(t, answer.issued.pair.access, later).Ok? <==> later < now + 15 * 60)
  {
    StepKeeps(s, op, now);
    IssuedAreStored(s, op, now);
    var (t, answer) := Apply(s, op, now).value;
    RefreshIsExact(t, answer.issued.pair.refresh, next, later);
    assert IsBacked(t.access[answer.issued.pair.access], t.accounts, t.devices);
  }

  // ----- signing in and out -----

  /** The account a name belongs to: by its address first, then by its user name. */
  ghost predicate Names(s: SessionState, name: string, user: UserId) {
    (name in s.byEmail && s.byEmail[name] == user) || (name !in s.byEmail && name in s.byUsername && s.byUsername[name] == user)
  }

  /** A password signs in exactly to an active account that has it, and then only with the second factor. */
  lemma SigningInIsExact(s: SessionState, name: string, password: Password, secondFactor: bool, device: DeviceId,
                         family: FamilyId, pair: Pair, now: Time, user: UserId)
    ensures var r := SignIn(s, name, password, secondFactor, device, family, pair, now);
            && (r.Ok? && r.value.1.Session? && r.value.1.issued.user == user <==>
                  && Names(s, name, user) && user in s.accounts && !s.accounts[user].deleted && !s.accounts[user].suspended
                  && s.accounts[user].password == password && secondFactor)
            && (r.Ok? ==> r.value.1 == Session(Issued(pair, r.value.1.issued.user, device, family)))
            && (r.Err? ==> r.error == InvalidCredentials || (r.error == SecondFactorRejected && !secondFactor))
  {
  }

  lemma CodeSignsInExactly(s: SessionState, user: UserId, device: DeviceId, family: FamilyId, pair: Pair, now: Time)
    ensures var r := SignInByCode(s, user, device, family, pair, now);
            && (r.Ok? <==> user in s.accounts && !s.accounts[user].deleted && !s.accounts[user].suspended)
            && (r.Ok? ==> r.value.1 == Session(Issued(pair, user, device, family)))
            && (r.Err? ==> r.error == Unauthorized)
  {
  }

  /** A new account takes an address and a user name nobody has; both then sign in with its password and no other. */
  lemma SigningUpIsExact(s: SessionState, email: string, username: string, password: Password, user: UserId, device: DeviceId,
                         family: FamilyId, pair: Pair, now: Time, other: Password, again: DeviceId, renewed: FamilyId, next: Pair)
    ensures var r := SignUp(s, email, username, password, user, device, family, pair, now);
            && (r.Ok? <==> email !in s.byEmail && username !in s.byUsername)
            && (r.Err? ==> r.error == AccountConflict)
            && (r.Ok? ==>
                  && r.value.1 == Session(Issued(pair, user, device, family))
                  && (SignIn(r.value.0, email, other, true, again, renewed, next, now).Ok? <==> other == password)
                  && (username !in s.byEmail && username != email ==>
                        (SignIn(r.value.0, username, other, true, again, renewed, next, now).Ok? <==> other == password)))
  {
  }

  /** Signing out ends the family of a stored token and consumes it; an unknown token changes nothing. */
  lemma SigningOutIsExact(s: SessionState, token: TokenHash, h: TokenHash)
    ensures SignOut(s, token).Ok? && SignOut(s, token).value.1 == Done
    ensures var t := SignOut(s, token).value.0;
            if token !in s.refresh then t == s
            else
              var family := s.refresh[token].family;
              && token !in t.refresh && token in t.consumed && t.consumed[token] == family && IsDead(t, family)
              && (h in s.access && s.access[h].family != family ==> h in t.access && t.access[h] == s.access[h])
              && (h in s.refresh && s.refresh[h].family != family ==> h in t.refresh && t.refresh[h] == s.refresh[h])
              && t.accounts == s.accounts && t.devices == s.devices
  {
  }

  // ----- devices, passwords, resets -----

  /** A user revokes a device of their own: the device and exactly its tokens. */
  lemma DroppingIsExact(s: SessionState, actor: UserId, device: DeviceId, d: DeviceId)
    ensures var r := DropDevice(s, actor, device);
            && (r.Ok? <==> device in s.devices && s.devices[device].user == actor)
            && (r.Err? ==> r.error == NotFound)
            && (r.Ok? ==>
                  var t := r.value.0;
                  && t.devices.Keys == s.devices.Keys && t.devices[device] == Device(actor, true)
                  && (d in s.devices && d != device ==> t.devices[d] == s.devices[d])
                  && t.access == Revoke(s, OfDevice(device)).access && t.refresh == Revoke(s, OfDevice(device)).refresh
                  && t.accounts == s.accounts && t.consumed == s.consumed)
  {
  }

  /** A password is changed by whoever knows it; every session of the account ends, its devices stay. */
  lemma ChangingPasswordIsExact(s: SessionState, actor: UserId, current: Password, next: Password)
    ensures var r := Repassword(s, actor, current, next);
            && (r.Ok? <==> actor in s.accounts && s.accounts[actor].password == current)
            && (r.Err? ==> r.error == if actor in s.accounts then InvalidCredentials else NotFound)
            && (r.Ok? ==>
                  var t := r.value.0;
                  && t.accounts == s.accounts[actor := s.accounts[actor].(password := next)] && t.devices == s.devices
                  && t.access == Revoke(s, OfUser(actor)).access && t.refresh == Revoke(s, OfUser(actor)).refresh)
  {
  }

  /** Asking for a reset answers the same for any address; for a known one it leaves exactly one pending reset of the account,
      good for a quarter of an hour. */
  lemma AskingResetIsExact(s: SessionState, email: string, reset: TokenHash, now: Time, r: TokenHash, later: Time)
    requires reset !in s.resets
    ensures AskReset(s, email, reset, now).Ok? && AskReset(s, email, reset, now).value.1 == Done
    ensures var t := AskReset(s, email, reset, now).value.0;
            if email !in s.byEmail then t == s
            else
              var user := s.byEmail[email];
              && reset in t.resets && t.resets[reset] == Reset(user, now + 900, false)
              && (r in t.resets && t.resets[r].user == user && !t.resets[r].consumed && t.resets[r].expiresAt > now ==> r == reset)
              && (r in s.resets && s.resets[r].user != user ==> r in t.resets && t.resets[r] == s.resets[r])
              && (user in s.accounts ==> (UseReset(t, reset, "", later).Ok? <==> later < now + 900))
              && t == s.(resets := t.resets)
  {
  }

  /** A pending reset sets the password of its account, ends every session and device of it, and is used up. */
  lemma UsingResetIsExact(s: SessionState, reset: TokenHash, next: Password, now: Time)
    ensures var r := UseReset(s, reset, next, now);
            && (r.Ok? <==> && reset in s.resets && !s.resets[reset].consumed && s.resets[reset].expiresAt > now
                           && s.resets[reset].user in s.accounts)
            && (r.Ok? ==>
                  var t, user := r.value.0, s.resets[reset].user;
                  && t.accounts == s.accounts[user := s.accounts[user].(password := next)]
                  && reset in t.resets && t.resets[reset].consumed && t.resets - {reset} == s.resets - {reset}
                  && t.access == Revoke(s, OfUser(user)).access && t.refresh == Revoke(s, OfUser(user)).refresh
                  && forall d :: d in s.devices && s.devices[d].user == user ==> d in t.devices && t.devices[d].revoked)
  {
  }

  // ----- administration and deletion -----

  /** An account that is not deleted is suspended and reinstated; a suspension ends its sessions and devices, a reinstatement
      changes no token. */
  lemma SuspendingIsExact(s: SessionState, target: UserId, suspended: bool, d: DeviceId)
    ensures var r := Suspend(s, target, suspended);
            && (r.Ok? <==> target in s.accounts && !s.accounts[target].deleted)
            && (r.Ok? ==>
                  var t := r.value.0;
                  && t.accounts == s.accounts[target := s.accounts[target].(suspended := suspended)]
                  && t.access == (if suspended then Revoke(s, OfUser(target)).access else s.access)
                  && t.refresh == (if suspended then Revoke(s, OfUser(target)).refresh else s.refresh)
                  && t.devices.Keys == s.devices.Keys
                  && (d in s.devices ==>
                        t.devices[d] == s.devices[d].(revoked := s.devices[d].revoked || (suspended && s.devices[d].user == target))))
  {
  }

  lemma RevokingAllIsExact(s: SessionState, target: UserId, d: DeviceId)
    ensures var r := RevokeAll(s, target);
            && (r.Ok? <==> target in s.accounts && !s.accounts[target].deleted)
            && (r.Ok? ==>
                  var t := r.value.0;
                  && t.access == Revoke(s, OfUser(target)).access && t.refresh == Revoke(s, OfUser(target)).refresh
                  && t.accounts == s.accounts && t.devices.Keys == s.devices.Keys
                  && (d in s.devices ==>
                        t.devices[d] == s.devices[d].(revoked := s.devices[d].revoked || s.devices[d].user == target)))
  {
  }

  /** An account is deleted by whoever knows its password; its names and resets go, and its names can be taken again. */
  lemma ErasingIsExact(s: SessionState, actor: UserId, password: Password, name: string, reset: TokenHash)
    ensures var r := Erase(s, actor, password);
            && (r.Ok? <==> actor in s.accounts && !s.accounts[actor].deleted && s.accounts[actor].password == password)
            && (r.Err? ==> r.error == if actor in s.accounts && !s.accounts[actor].deleted then InvalidCredentials else NotFound)
            && (r.Ok? ==>
                  var t := r.value.0;
                  && t.accounts == s.accounts[actor := s.accounts[actor].(deleted := true)]
                  && (name in t.byEmail <==> name in s.byEmail && s.byEmail[name] != actor)
                  && (name in t.byEmail ==> t.byEmail[name] == s.byEmail[name])
                  && (name in t.byUsername <==> name in s.byUsername && s.byUsername[name] != actor)
                  && (name in t.byUsername ==> t.byUsername[name] == s.byUsername[name])
                  && (reset in t.resets <==> reset in s.resets && s.resets[reset].user != actor)
                  && t.access == Revoke(s, OfUser(actor)).access && t.refresh == Revoke(s, OfUser(actor)).refresh
                  && forall d :: d in s.devices && s.devices[d].user == actor ==> d in t.devices && t.devices[d].revoked)
  {
  }
}
