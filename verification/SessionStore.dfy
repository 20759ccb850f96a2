/** The session tables edited in place, inside the same kind of transaction as the rest of the store. */
module SessionStore {
  import opened Domain
  import opened Sessions
  import opened SessionTheorems
  import opened SessionEffects

  lemma TransactionKeeps(before: SessionState, after: SessionState, op: Op, now: Time)
    requires Inv(before) && IsFresh(before, op) && (after == Step(before, op, now) || after == before)
    ensures Keeps(before, after)
  {
    StepKeeps(before, op, now);
  }

  class SessionStore {
    var accounts: map<UserId, Login>
    var byEmail: map<string, UserId>
    var byUsername: map<string, UserId>
    var access: map<TokenHash, Token>
    var refresh: map<TokenHash, Token>
    var consumed: map<TokenHash, FamilyId>
    var devices: map<DeviceId, Device>
    var resets: map<TokenHash, Reset>

    function Value(): SessionState
      reads this
    {
      SessionState(accounts, byEmail, byUsername, access, refresh, consumed, devices, resets)
    }

    constructor ()
      ensures Value() == NOBODY && Inv(Value())
    {
      accounts, byEmail, byUsername := map[], map[], map[];
      access, refresh, consumed, devices, resets := map[], map[], map[], map[], map[];
    }

    method Restore(s: SessionState)
      modifies this
      ensures Value() == s
    {
      accounts, byEmail, byUsername := s.accounts, s.byEmail, s.byUsername;
      access, refresh, consumed, devices, resets := s.access, s.refresh, s.consumed, s.devices, s.resets;
    }

    // ----- revocation -----

    /** Marks every token in scope, one record at a time, the access tokens first. */
    method RevokeTokens(scope: Scope)
      modifies this`access, this`refresh
      ensures Value() == Revoke(old(Value()), scope)
    {
      var rest := access.Keys;
      while rest != {}
        invariant rest <= access.Keys == old(access).Keys && refresh == old(refresh)
        invariant forall h :: h in access ==> access[h] == if h in rest then old(access)[h] else Mark(old(access)[h], scope)
      {
        var h :| h in rest;
        if scope.Covers(access[h]) {
          access := access[h := access[h].(revoked := true)];
        }
        rest := rest - {h};
      }
      assert access == Marked(old(access), scope);
      rest := refresh.Keys;
      while rest != {}
        invariant rest <= refresh.Keys == old(refresh).Keys && access == Marked(old(access), scope)
        invariant forall h :: h in refresh ==> refresh[h] == if h in rest then old(refresh)[h] else Mark(old(refresh)[h], scope)
      {
        var h :| h in rest;
        if scope.Covers(refresh[h]) {
          refresh := refresh[h := refresh[h].(revoked := true)];
        }
        rest := rest - {h};
      }
      assert refresh == Marked(old(refresh), scope);
    }

    method RevokeDevicesOf(user: UserId)
      modifies this`devices
      ensures devices == WithoutDevices(old(devices), user)
    {
      var rest := devices.Keys;
      while rest != {}
        invariant rest <= devices.Keys == old(devices).Keys
        invariant forall d :: d in devices ==>
                    devices[d] == if d in rest then old(devices)[d] else WithoutDevices(old(devices), user)[d]
      {
        var d :| d in rest;
        if devices[d].user == user {
          devices := devices[d := devices[d].(revoked := true)];
        }
        rest := rest - {d};
      }
    }

    method RevokeUserSessions(user: UserId, devicesToo: bool)
      modifies this`access, this`refresh, this`devices
      ensures Value() == RevokeUser(old(Value()), user, devicesToo)
    {
      RevokeTokens(OfUser(user));
      if devicesToo {
        RevokeDevicesOf(user);
      }
    }

    // ----- issuing -----

    method IssueInFamily(user: UserId, device: DeviceId, family: FamilyId, pair: Pair, now: Time) returns (issued: Issued)
      modifies this`access, this`refresh
      ensures Value() == Issue(old(Value()), user, device, family, pair, now) && issued == Issued(pair, user, device, family)
    {
      access := access[pair.access := Token(user, device, family, now + ACCESS_SECONDS, false)];
      refresh := refresh[pair.refresh := Token(user, device, family, now + REFRESH_SECONDS, false)];
      issued := Issued(pair, user, device, family);
    }

    method StartSession(user: UserId, device: DeviceId, family: FamilyId, pair: Pair, now: Time) returns (r: Result<Answer>)
      modifies this`access, this`refresh, this`devices
      ensures Agrees(r, Value(), Start(old(Value()), user, device, family, pair, now))
    {
      devices := devices[device := Device(user, false)];
      var issued := IssueInFamily(user, device, family, pair, now);
      return Ok(Session(issued));
    }

    // ----- operations -----

    method RegisterInStore(email: string, username: string, password: Password, user: UserId, device: DeviceId,
                           family: FamilyId, pair: Pair, now: Time) returns (r: Result<Answer>)
      modifies this
      ensures Agrees(r, Value(), SignUp(old(Value()), email, username, password, user, device, family, pair, now))
    {
      if email in byEmail || username in byUsername {
        return Err(AccountConflict);
      }
      byEmail, byUsername := byEmail[email := user], byUsername[username := user];
      accounts := accounts[user := Login(password, false, false)];
      r := StartSession(user, device, family, pair, now);
    }

    method LogInInStore(lookup: string, password: Password, secondFactor: bool, device: DeviceId, family: FamilyId, pair: Pair,
                        now: Time) returns (r: Result<Answer>)
      modifies this
      ensures Agrees(r, Value(), SignIn(old(Value()), lookup, password, secondFactor, device, family, pair, now))
    {
      var user := Lookup(Value(), lookup);
      if !Verifies(Value(), user, password) {
        return Err(InvalidCredentials);
      }
      if !secondFactor {
        return Err(SecondFactorRejected);
      }
      r := StartSession(user.value, device, family, pair, now);
    }

    method PollCodeInStore(user: UserId, device: DeviceId, family: FamilyId, pair: Pair, now: Time) returns (r: Result<Answer>)
      modifies this
      ensures Agrees(r, Value(), SignInByCode(old(Value()), user, device, family, pair, now))
    {
      if user !in accounts || !accounts[user].IsActive() {
        return Err(Unauthorized);
      }
      r := StartSession(user, device, family, pair, now);
    }

    /** The presented token is taken out before it is judged: a rejection relies on the transaction to put it back. */
    method RefreshInStore(token: TokenHash, pair: Pair, now: Time) returns (r: Result<Answer>)
      modifies this
      ensures Agrees(r, Value(), Rotate(old(Value()), token, pair, now))
      ensures Inv(old(Value())) ==> (r.Ok? && r.value.Session? <==> IsGood(old(Value()), token, now))
    {
      if Inv(Value()) {
        RefreshIsExact(Value(), token, pair, now);
      }
      if token in consumed {
        RevokeTokens(OfFamily(consumed[token]));
        return Ok(Refused(RefreshTokenReuse));
      }
      if token !in refresh {
        return Err(Unauthorized);
      }
      var record := refresh[token];
      refresh := refresh - {token};
      if record.revoked || record.expiresAt <= now {
        return Err(SessionExpired);
      }
      consumed := consumed[token := record.family];
      if record.user !in accounts || accounts[record.user].deleted {
        return Err(Unauthorized);
      }
      var issued := IssueInFamily(record.user, record.device, record.family, pair, now);
      return Ok(Session(issued));
    }

    method LogOutInStore(token: TokenHash) returns (r: Result<Answer>)
      modifies this
      ensures Agrees(r, Value(), SignOut(old(Value()), token))
    {
      if token in refresh {
        var record := refresh[token];
        refresh := refresh - {token};
        RevokeTokens(OfFamily(record.family));
        consumed := consumed[token := record.family];
      }
      return Ok(Done);
    }

    method RevokeDeviceInStore(actor: UserId, device: DeviceId) returns (r: Result<Answer>)
      modifies this
      ensures Agrees(r, Value(), DropDevice(old(Value()), actor, device))
    {
      if device !in devices || devices[device].user != actor {
        return Err(NotFound);
      }
      devices := devices[device := devices[device].(revoked := true)];
      RevokeTokens(OfDevice(device));
      return Ok(Done);
    }

    method ChangePasswordInStore(actor: UserId, current: Password, next: Password) returns (r: Result<Answer>)
      modifies this
      ensures Agrees(r, Value(), Repassword(old(Value()), actor, current, next))
    {
      if actor !in accounts {
        return Err(NotFound);
      }
      if accounts[actor].password != current {
        return Err(InvalidCredentials);
      }
      accounts := accounts[actor := accounts[actor].(password := next)];
      RevokeUserSessions(actor, false);
      return Ok(Done);
    }

    method RequestResetInStore(email: string, reset: TokenHash, now: Time) returns (r: Result<Answer>)
      modifies this
      ensures Agrees(r, Value(), AskReset(old(Value()), email, reset, now))
    {
      if email in byEmail {
        var user := byEmail[email];
        resets := OtherResets(resets, user, now);
        resets := resets[reset := Reset(user, now + RESET_SECONDS, false)];
      }
      return Ok(Done);
    }

    /** The reset is marked consumed before the account is looked up: an error relies on the transaction to undo it. */
    method ResetPasswordInStore(reset: TokenHash, next: Password, now: Time) returns (r: Result<Answer>)
      modifies this
      ensures Agrees(r, Value(), UseReset(old(Value()), reset, next, now))
    {
      if reset !in resets || resets[reset].consumed || resets[reset].expiresAt <= now {
        return Err(InvalidCredentials);
      }
      var user := resets[reset].user;
      resets := resets[reset := resets[reset].(consumed := true)];
      if user !in accounts {
        return Err(NotFound);
      }
      accounts := accounts[user := accounts[user].(password := next)];
      RevokeUserSessions(user, true);
      return Ok(Done);
    }

    method SetSuspendedInStore(target: UserId, suspended: bool) returns (r: Result<Answer>)
      modifies this
      ensures Agrees(r, Value(), Suspend(old(Value()), target, suspended))
    {
      if target !in accounts || accounts[target].deleted {
        return Err(NotFound);
      }
      accounts := accounts[target := accounts[target].(suspended := suspended)];
      if suspended {
        RevokeUserSessions(target, true);
      }
      return Ok(Done);
    }

    method RevokeSessionsInStore(target: UserId) returns (r: Result<Answer>)
      modifies this
      ensures Agrees(r, Value(), RevokeAll(old(Value()), target))
    {
      if target !in accounts || accounts[target].deleted {
        return Err(NotFound);
      }
      RevokeUserSessions(target, true);
      return Ok(Done);
    }

    method DeleteAccountInStore(actor: UserId, password: Password) returns (r: Result<Answer>)
      modifies this
      ensures Agrees(r, Value(), Erase(old(Value()), actor, password))
    {
      if actor !in accounts || accounts[actor].deleted {
        return Err(NotFound);
      }
      if accounts[actor].password != password {
        return Err(InvalidCredentials);
      }
      accounts := accounts[actor := accounts[actor].(deleted := true)];
      byEmail, byUsername := NamesOfOthers(byEmail, actor), NamesOfOthers(byUsername, actor);
      RevokeUserSessions(actor, true);
      resets := ResetsOfOthers(resets, actor);
      return Ok(Done);
    }

    method Execute(op: Op, now: Time) returns (r: Result<Answer>)
      modifies this
      ensures Agrees(r, Value(), Apply(old(Value()), op, now))
    {
      match op {
        case Register(email, username, password, user, device, family, pair) =>
          r := RegisterInStore(email, username, password, user, device, family, pair, now);
        case LogIn(lookup, password, secondFactor, device, family, pair) =>
          r := LogInInStore(lookup, password, secondFactor, device, family, pair, now);
        case LogInByCode(user, device, family, pair) => r := PollCodeInStore(user, device, family, pair, now);
        case Refresh(token, pair) => r := RefreshInStore(token, pair, now);
        case LogOut(token) => r := LogOutInStore(token);
        case RevokeDevice(actor, device) => r := RevokeDeviceInStore(actor, device);
        case ChangePassword(actor, current, next) => r := ChangePasswordInStore(actor, current, next);
        case RequestReset(email, reset) => r := RequestResetInStore(email, reset, now);
        case ResetPassword(reset, next) => r := ResetPasswordInStore(reset, next, now);
        case SetSuspended(target, suspended) => r := SetSuspendedInStore(target, suspended);
        case RevokeSessions(target) => r := RevokeSessionsInStore(target);
        case DeleteAccount(actor, password) => r := DeleteAccountInStore(actor, password);
      }
    }

    /** The transaction: what the operation did is kept with its answer, even a refusal, or an error leaves no trace. */
    method Mutate(op: Op, now: Time, persisted: bool) returns (r: Result<Answer>)
      requires Inv(Value()) && IsFresh(Value(), op)
      modifies this
      ensures Keeps(old(Value()), Value())
      ensures var spec := Apply(old(Value()), op, now);
              if spec.Ok? && persisted then r == Ok(spec.value.1) && Value() == spec.value.0
              else Value() == old(Value()) && r == Err(if spec.Err? then spec.error else Error.Storage)
    {
      var previous := Value();
      r := Execute(op, now);
      if r.Err? {
        Restore(previous);
      } else if !persisted {
        Restore(previous);
        r := Err(Error.Storage);
      }
      TransactionKeeps(previous, Value(), op, now);
    }

    /** `refresh` unwraps the inner refusal only after the transaction has committed it. */
    method RefreshSession(token: TokenHash, pair: Pair, now: Time, persisted: bool) returns (r: Result<Issued>)
      requires Inv(Value()) && IsNewPair(Value(), pair)
      modifies this
      ensures Inv(Value())
      ensures persisted && token in old(consumed) ==>
                r == Err(RefreshTokenReuse) && Value() == Revoke(old(Value()), OfFamily(old(consumed)[token]))
      ensures r.Ok? ==> && token in old(refresh) && token !in old(consumed)
                        && r.value == Issued(pair, old(refresh)[token].user, old(refresh)[token].device, old(refresh)[token].family)
                        && Value() == Issue(Spend(old(Value()), token), r.value.user, r.value.device, r.value.family, pair, now)
      ensures r.Err? && !(persisted && token in old(consumed)) ==> Value() == old(Value())
      ensures r.Ok? <==> persisted && IsGood(old(Value()), token, now)
      ensures persisted && token !in old(consumed) && !IsGood(old(Value()), token, now) ==>
                r == Err(if token in old(refresh) then SessionExpired else Unauthorized)
    {
      RefreshIsExact(Value(), token, pair, now);
      var answer := Mutate(Refresh(token, pair), now, persisted);
      if answer.Err? {
        return Err(answer.error);
      }
      match answer.value {
        case Session(issued) => return Ok(issued);
        case Refused(error) => return Err(error);
        case Done => assert false;
      }
    }
  }
}
