/** What every run of session operations keeps: rotation within families, and revocation that is complete and final. */
module SessionTheorems {
  import opened Domain
  import opened Sessions

  // ----- the invariant -----

  /** An unrevoked token has an unrevoked device of its user, whose account is neither deleted nor suspended. */
  ghost predicate IsBacked(token: Token, accounts: map<UserId, Login>, devices: map<DeviceId, Device>) {
    token.revoked
    || (token.device in devices && devices[token.device] == Device(token.user, false)
        && token.user in accounts && accounts[token.user].IsActive())
  }

  ghost predicate Backed(tokens: map<TokenHash, Token>, accounts: map<UserId, Login>, devices: map<DeviceId, Device>) {
    forall h :: h in tokens ==> IsBacked(tokens[h], accounts, devices)
  }

  /** At most one refresh token of a family is stored. */
  ghost predicate OnePerFamily(refresh: map<TokenHash, Token>) {
    forall g, h :: g in refresh && h in refresh && refresh[g].family == refresh[h].family ==> g == h
  }

  /** A stored refresh token is not a consumed one. */
  ghost predicate NoneConsumed(refresh: map<TokenHash, Token>, consumed: map<TokenHash, FamilyId>) {
    forall h :: h in refresh ==> h !in consumed
  }

  predicate SameSession(a: Token, b: Token) {
    a.family == b.family ==> a.user == b.user && a.device == b.device
  }

  /** All tokens of a family are one user's on one device. */
  ghost predicate FamiliesAgree(access: map<TokenHash, Token>, refresh: map<TokenHash, Token>) {
    && (forall g, h :: g in access && h in access ==> SameSession(access[g], access[h]))
    && (forall g, h :: g in access && h in refresh ==> SameSession(access[g], refresh[h]))
  }

  /** A family somebody holds a token of has an access token on record. */
  ghost predicate IsKnown(access: map<TokenHash, Token>, family: FamilyId) {
    exists h :: h in access && access[h].family == family
  }

  ghost predicate FamiliesAreKnown(s: SessionState) {
    && (forall h :: h in s.refresh ==> IsKnown(s.access, s.refresh[h].family))
    && (forall h :: h in s.consumed ==> IsKnown(s.access, s.consumed[h]))
  }

  ghost predicate Inv(s: SessionState) {
    && Backed(s.access, s.accounts, s.devices)
    && Backed(s.refresh, s.accounts, s.devices)
    && OnePerFamily(s.refresh)
    && NoneConsumed(s.refresh, s.consumed)
    && FamiliesAgree(s.access, s.refresh)
    && FamiliesAreKnown(s)
  }

  // ----- what may change -----

  /** The same token, possibly revoked since. */
  predicate Ages(a: Token, b: Token) {
    b.(revoked := a.revoked) == a && (a.revoked ==> b.revoked)
  }

  ghost predicate IsDead(s: SessionState, family: FamilyId) {
    && (forall h :: h in s.access && s.access[h].family == family ==> s.access[h].revoked)
    && (forall h :: h in s.refresh && s.refresh[h].family == family ==> s.refresh[h].revoked)
  }

  /** Tokens are never unrevoked or forgotten: a stored refresh token can only age or be consumed. */
  ghost predicate Evolves(s: SessionState, t: SessionState) {
    && (forall h :: h in s.access ==> h in t.access && Ages(s.access[h], t.access[h]))
    && (forall h :: h in s.refresh ==>
          if h in t.consumed then t.consumed[h] == s.refresh[h].family else h in t.refresh && Ages(s.refresh[h], t.refresh[h]))
    && (forall h :: h in s.consumed ==> h in t.consumed && t.consumed[h] == s.consumed[h])
    && (forall d :: d in s.devices && s.devices[d].revoked ==> d in t.devices && t.devices[d] == s.devices[d])
    && (forall u :: u in s.accounts && s.accounts[u].deleted ==> u in t.accounts && t.accounts[u].deleted)
    && (forall f :: IsKnown(s.access, f) && IsDead(s, f) ==> IsDead(t, f))
  }

  lemma EvolvesIsTransitive(s: SessionState, t: SessionState, u: SessionState)
    requires Evolves(s, t) && Evolves(t, u)
    ensures Evolves(s, u)
  {
    forall f | IsKnown(s.access, f) && IsDead(s, f) ensures IsDead(u, f) {
      var h :| h in s.access && s.access[h].family == f;
      assert Ages(s.access[h], t.access[h]);
      assert IsKnown(t.access, f);
    }
    forall h | h in s.access ensures h in u.access && Ages(s.access[h], u.access[h]) {
      assert Ages(s.access[h], t.access[h]) && Ages(t.access[h], u.access[h]);
    }
    forall h | h in s.refresh && h !in u.consumed ensures h in u.refresh && Ages(s.refresh[h], u.refresh[h]) {
      assert h !in t.consumed && Ages(s.refresh[h], t.refresh[h]) && Ages(t.refresh[h], u.refresh[h]);
    }
  }

  // ----- what each building block keeps -----

  ghost predicate Keeps(s: SessionState, t: SessionState) {
    Inv(t) && Evolves(s, t)
  }

  lemma KnownGrows(a: map<TokenHash, Token>, b: map<TokenHash, Token>)
    requires forall h :: h in a ==> h in b && a[h].family == b[h].family
    ensures forall f :: IsKnown(a, f) ==> IsKnown(b, f)
  {
    forall f | IsKnown(a, f) ensures IsKnown(b, f) {
      var h :| h in a && a[h].family == f;
      assert h in b && b[h].family == f;
    }
  }

  lemma MarkingAgrees(access: map<TokenHash, Token>, refresh: map<TokenHash, Token>, scope: Scope)
    requires FamiliesAgree(access, refresh)
    ensures FamiliesAgree(Marked(access, scope), Marked(refresh, scope))
  {
    var a, r := Marked(access, scope), Marked(refresh, scope);
    forall g, h | g in a && h in a ensures SameSession(a[g], a[h]) {
      assert SameSession(access[g], access[h]);
    }
    forall g, h | g in a && h in r ensures SameSession(a[g], r[h]) {
      assert SameSession(access[g], refresh[h]);
    }
  }

  lemma MarkingBacks(tokens: map<TokenHash, Token>, accounts: map<UserId, Login>, devices: map<DeviceId, Device>, scope: Scope)
    requires Backed(tokens, accounts, devices)
    ensures Backed(Marked(tokens, scope), accounts, devices)
  {
    forall h | h in tokens ensures IsBacked(Mark(tokens[h], scope), accounts, devices) {
      assert IsBacked(tokens[h], accounts, devices);
    }
  }

  lemma RevokeEvolves(s: SessionState, scope: Scope)
    requires NoneConsumed(s.refresh, s.consumed)
    ensures Evolves(s, Revoke(s, scope))
  {
  }

  lemma RevokeKeeps(s: SessionState, scope: Scope)
    requires Inv(s)
    ensures Keeps(s, Revoke(s, scope))
  {
    var t := Revoke(s, scope);
    MarkingAgrees(s.access, s.refresh, scope);
    MarkingBacks(s.access, s.accounts, s.devices, scope);
    MarkingBacks(s.refresh, s.accounts, s.devices, scope);
    KnownGrows(s.access, t.access);
    RevokeEvolves(s, scope);
  }

  /** A revocation covers every token in its scope and touches no other. */
  lemma RevokeIsExact(s: SessionState, scope: Scope, h: TokenHash)
    ensures var t := Revoke(s, scope);
            && t.access.Keys == s.access.Keys && t.refresh.Keys == s.refresh.Keys
            && (h in s.access ==> (t.access[h].revoked <==> s.access[h].revoked || scope.Covers(s.access[h])))
            && (h in s.refresh ==> (t.refresh[h].revoked <==> s.refresh[h].revoked || scope.Covers(s.refresh[h])))
            && (scope.OfFamily? ==> IsDead(t, scope.family))
  {
  }

  /** Revoking a user's tokens allows any change to that user's account and devices that forgets neither. */
  lemma RevokeUserKeeps(s: SessionState, e: SessionState, user: UserId, devicesToo: bool)
    requires Inv(s)
    requires e.access == s.access && e.refresh == s.refresh && e.consumed == s.consumed && e.devices == s.devices
    requires forall u :: u in s.accounts ==> u in e.accounts && (s.accounts[u].deleted ==> e.accounts[u].deleted)
    requires forall u :: u in s.accounts && u != user ==> e.accounts[u] == s.accounts[u]
    ensures Keeps(s, RevokeUser(e, user, devicesToo))
  {
    RevokeKeeps(s, OfUser(user));
    var r := Revoke(s, OfUser(user));
    var t := RevokeUser(e, user, devicesToo);
    BackedWithoutUser(s.access, s.accounts, e.accounts, s.devices, user, devicesToo);
    BackedWithoutUser(s.refresh, s.accounts, e.accounts, s.devices, user, devicesToo);
    SameTokensKeep(s, r, t);
  }

  lemma BackedWithoutUser(tokens: map<TokenHash, Token>, a: map<UserId, Login>, b: map<UserId, Login>,
                          devices: map<DeviceId, Device>, user: UserId, devicesToo: bool)
    requires Backed(tokens, a, devices)
    requires forall u :: u in a && u != user ==> u in b && b[u] == a[u]
    ensures Backed(Marked(tokens, OfUser(user)), b, if devicesToo then WithoutDevices(devices, user) else devices)
  {
    var left := if devicesToo then WithoutDevices(devices, user) else devices;
    forall h | h in tokens ensures IsBacked(Mark(tokens[h], OfUser(user)), b, left) {
      assert IsBacked(tokens[h], a, devices);
    }
  }

  /** Changes to accounts and devices that back the tokens and forget no deletion or revocation. */
  lemma SameTokensKeep(s: SessionState, r: SessionState, t: SessionState)
    requires Keeps(s, r) && t.access == r.access && t.refresh == r.refresh && t.consumed == r.consumed
    requires Backed(t.access, t.accounts, t.devices) && Backed(t.refresh, t.accounts, t.devices)
    requires forall u :: u in s.accounts && s.accounts[u].deleted ==> u in t.accounts && t.accounts[u].deleted
    requires forall d :: d in s.devices && s.devices[d].revoked ==> d in t.devices && t.devices[d] == s.devices[d]
    ensures Keeps(s, t)
  {
    assert FamiliesAreKnown(t);
    forall f | IsKnown(s.access, f) && IsDead(s, f) ensures IsDead(t, f) {
      assert IsDead(r, f);
    }
  }

  /** Issuing in a family that has no other refresh token, for the user and device of its access tokens. */
  ghost predicate CanIssue(s: SessionState, user: UserId, device: DeviceId, family: FamilyId, pair: Pair) {
    && (forall h :: h in s.refresh ==> s.refresh[h].family != family)
    && (forall h :: h in s.access && s.access[h].family == family ==> s.access[h].user == user && s.access[h].device == device)
    && IsNewPair(s, pair)
    && IsBacked(Token(user, device, family, 0, false), s.accounts, s.devices)
  }

  lemma IssueAgrees(s: SessionState, user: UserId, device: DeviceId, family: FamilyId, pair: Pair, now: Time)
    requires FamiliesAgree(s.access, s.refresh) && CanIssue(s, user, device, family, pair)
    ensures var t := Issue(s, user, device, family, pair, now); FamiliesAgree(t.access, t.refresh)
  {
    var t := Issue(s, user, device, family, pair, now);
    forall g, h | g in t.access && h in t.access ensures SameSession(t.access[g], t.access[h]) {
      assert g != pair.access && h != pair.access ==> SameSession(s.access[g], s.access[h]);
    }
    forall g, h | g in t.access && h in t.refresh ensures SameSession(t.access[g], t.refresh[h]) {
      assert g != pair.access && h != pair.refresh ==> SameSession(s.access[g], s.refresh[h]);
    }
  }

  lemma IssueBacks(s: SessionState, user: UserId, device: DeviceId, family: FamilyId, pair: Pair, now: Time)
    requires Backed(s.access, s.accounts, s.devices) && Backed(s.refresh, s.accounts, s.devices)
    requires CanIssue(s, user, device, family, pair)
    ensures var t := Issue(s, user, device, family, pair, now);
            Backed(t.access, t.accounts, t.devices) && Backed(t.refresh, t.accounts, t.devices)
  {
    var t := Issue(s, user, device, family, pair, now);
    forall h | h in t.access ensures IsBacked(t.access[h], t.accounts, t.devices) {
      assert h != pair.access ==> IsBacked(s.access[h], s.accounts, s.devices);
    }
    forall h | h in t.refresh ensures IsBacked(t.refresh[h], t.accounts, t.devices) {
      assert h != pair.refresh ==> IsBacked(s.refresh[h], s.accounts, s.devices);
    }
  }

  lemma IssueKeeps(s: SessionState, user: UserId, device: DeviceId, family: FamilyId, pair: Pair, now: Time)
    requires Inv(s) && CanIssue(s, user, device, family, pair)
    ensures Inv(Issue(s, user, device, family, pair, now))
  {
    var t := Issue(s, user, device, family, pair, now);
    IssueAgrees(s, user, device, family, pair, now);
    IssueBacks(s, user, device, family, pair, now);
    KnownGrows(s.access, t.access);
    assert t.access[pair.access].family == family;
  }

  /** What a dead family and the tokens of others see of a session issued in a family with no stored refresh token. */
  lemma IssueEvolves(s: SessionState, user: UserId, device: DeviceId, family: FamilyId, pair: Pair, now: Time)
    requires IsNewPair(s, pair) && NoneConsumed(s.refresh, s.consumed)
    requires IsKnown(s.access, family) ==> !IsDead(s, family)
    ensures Evolves(s, Issue(s, user, device, family, pair, now))
  {
  }

  lemma BackedOnNewDevice(tokens: map<TokenHash, Token>, a: map<UserId, Login>, b: map<UserId, Login>,
                          devices: map<DeviceId, Device>, device: DeviceId, user: UserId)
    requires Backed(tokens, a, devices) && device !in devices
    requires forall u :: u in a ==> u in b && b[u] == a[u]
    ensures Backed(tokens, b, devices[device := Device(user, false)])
  {
    forall h | h in tokens ensures IsBacked(tokens[h], b, devices[device := Device(user, false)]) {
      assert IsBacked(tokens[h], a, devices);
    }
  }

  /** A session starts on a new device in a new family. */
  lemma StartKeeps(s: SessionState, e: SessionState, user: UserId, device: DeviceId, family: FamilyId, pair: Pair, now: Time)
    requires Inv(s) && device !in s.devices && IsNewFamily(s, family) && IsNewPair(s, pair)
    requires e == s.(accounts := e.accounts, byEmail := e.byEmail, byUsername := e.byUsername)
    requires forall u :: u in s.accounts ==> u in e.accounts && e.accounts[u] == s.accounts[u]
    requires user in e.accounts && e.accounts[user].IsActive()
    ensures Start(e, user, device, family, pair, now).Ok? && Keeps(s, Start(e, user, device, family, pair, now).value.0)
  {
    var added := e.(devices := e.devices[device := Device(user, false)]);
    BackedOnNewDevice(s.access, s.accounts, e.accounts, s.devices, device, user);
    BackedOnNewDevice(s.refresh, s.accounts, e.accounts, s.devices, device, user);
    assert FamiliesAreKnown(added);
    IssueKeeps(added, user, device, family, pair, now);
    IssueEvolves(added, user, device, family, pair, now);
    AddingEvolves(s, added, Issue(added, user, device, family, pair, now));
  }

  /** New accounts and devices are no change to the tokens. */
  lemma AddingEvolves(s: SessionState, added: SessionState, t: SessionState)
    requires added.access == s.access && added.refresh == s.refresh && added.consumed == s.consumed
    requires forall d :: d in s.devices ==> d in added.devices && added.devices[d] == s.devices[d]
    requires forall u :: u in s.accounts ==> u in added.accounts && added.accounts[u] == s.accounts[u]
    requires Evolves(added, t)
    ensures Evolves(s, t)
  {
    forall f | IsDead(s, f) ensures IsDead(added, f) {
    }
  }

  /** The presented token leaves the store for the consumed ones. */
  function Spend(s: SessionState, token: TokenHash): SessionState
    requires token in s.refresh
  {
    s.(refresh := s.refresh - {token}, consumed := s.consumed[token := s.refresh[token].family])
  }

  lemma SpendKeeps(s: SessionState, token: TokenHash)
    requires Inv(s) && token in s.refresh
    ensures Inv(Spend(s, token))
    ensures forall h :: h in Spend(s, token).refresh ==> s.refresh[h].family != s.refresh[token].family
  {
    assert FamiliesAreKnown(Spend(s, token));
  }

  lemma RotateKeeps(s: SessionState, token: TokenHash, pair: Pair, now: Time)
    requires Inv(s) && IsNewPair(s, pair)
    ensures var r := Rotate(s, token, pair, now); r.Ok? ==> Keeps(s, r.value.0)
  {
    if token in s.consumed {
      RevokeKeeps(s, OfFamily(s.consumed[token]));
    } else if Rotate(s, token, pair, now).Ok? {
      var record := s.refresh[token];
      SpendKeeps(s, token);
      assert IsBacked(record, s.accounts, s.devices);
      assert forall h :: h in s.access ==> SameSession(s.access[h], record);
      IssueKeeps(Spend(s, token), record.user, record.device, record.family, pair, now);
      RotateEvolves(s, token, record.user, record.device, pair, now);
    }
  }

  lemma RotateEvolves(s: SessionState, token: TokenHash, user: UserId, device: DeviceId, pair: Pair, now: Time)
    requires IsNewPair(s, pair) && NoneConsumed(s.refresh, s.consumed) && token in s.refresh && !s.refresh[token].revoked
    ensures Evolves(s, Issue(Spend(s, token), user, device, s.refresh[token].family, pair, now))
  {
  }

  lemma SignOutKeeps(s: SessionState, token: TokenHash)
    requires Inv(s)
    ensures SignOut(s, token).Ok? && Keeps(s, SignOut(s, token).value.0)
  {
    if token in s.refresh {
      var family := s.refresh[token].family;
      RevokeKeeps(s, OfFamily(family));
      SignOutSpends(s, token);
      ConsumeKeeps(s, Revoke(s, OfFamily(family)), token);
    }
  }

  lemma SignOutSpends(s: SessionState, token: TokenHash)
    requires token in s.refresh
    ensures SignOut(s, token).Ok? && SignOut(s, token).value.0 == Spend(Revoke(s, OfFamily(s.refresh[token].family)), token)
  {
    var scope := OfFamily(s.refresh[token].family);
    assert Marked(s.refresh - {token}, scope) == Marked(s.refresh, scope) - {token};
  }

  lemma ConsumeKeeps(s: SessionState, r: SessionState, token: TokenHash)
    requires Inv(r) && Evolves(s, r) && token in r.refresh
    ensures Keeps(s, Spend(r, token))
  {
    SpendKeeps(r, token);
    SpendEvolves(r, token);
    EvolvesIsTransitive(s, r, Spend(r, token));
  }

  lemma SpendEvolves(r: SessionState, token: TokenHash)
    requires NoneConsumed(r.refresh, r.consumed) && token in r.refresh
    ensures Evolves(r, Spend(r, token))
  {
  }

  lemma DropDeviceKeeps(s: SessionState, actor: UserId, device: DeviceId)
    requires Inv(s)
    ensures var r := DropDevice(s, actor, device); r.Ok? ==> Keeps(s, r.value.0)
  {
    if DropDevice(s, actor, device).Ok? {
      RevokeKeeps(s, OfDevice(device));
      BackedWithoutDevice(s.access, s.accounts, s.devices, device);
      BackedWithoutDevice(s.refresh, s.accounts, s.devices, device);
      SameTokensKeep(s, Revoke(s, OfDevice(device)), DropDevice(s, actor, device).value.0);
    }
  }

  lemma BackedWithoutDevice(tokens: map<TokenHash, Token>, accounts: map<UserId, Login>, devices: map<DeviceId, Device>,
                            device: DeviceId)
    requires Backed(tokens, accounts, devices) && device in devices
    ensures Backed(Marked(tokens, OfDevice(device)), accounts, devices[device := devices[device].(revoked := true)])
  {
    forall h | h in tokens
      ensures IsBacked(Mark(tokens[h], OfDevice(device)), accounts, devices[device := devices[device].(revoked := true)])
    {
      assert IsBacked(tokens[h], accounts, devices);
    }
  }

  /** Operations that touch neither tokens nor devices, and no account except to reinstate one. */
  lemma UntouchedKeeps(s: SessionState, t: SessionState)
    requires Inv(s)
    requires t == s.(accounts := t.accounts, resets := t.resets)
    requires forall u :: u in s.accounts ==>
               u in t.accounts && t.accounts[u].deleted == s.accounts[u].deleted && (t.accounts[u].suspended ==> s.accounts[u].suspended)
    ensures Keeps(s, t)
  {
    forall h | h in t.access ensures IsBacked(t.access[h], t.accounts, t.devices) {
      assert IsBacked(s.access[h], s.accounts, s.devices);
    }
    forall h | h in t.refresh ensures IsBacked(t.refresh[h], t.accounts, t.devices) {
      assert IsBacked(s.refresh[h], s.accounts, s.devices);
    }
    assert FamiliesAreKnown(t);
  }

  lemma AccountOpKeeps(s: SessionState, op: Op, now: Time)
    requires Inv(s) && Apply(s, op, now).Ok?
    requires op.ChangePassword? || op.RequestReset? || op.ResetPassword? || op.SetSuspended? || op.RevokeSessions? || op.DeleteAccount?
    ensures Keeps(s, Step(s, op, now))
  {
    match op {
      case ChangePassword(actor, _, next) => RevokeUserKeeps(s, NewPassword(s, actor, next), actor, false);
      case RequestReset(_, _) => UntouchedKeeps(s, Step(s, op, now));
      case ResetPassword(reset, next) =>
        var spent := s.(resets := s.resets[reset := s.resets[reset].(consumed := true)]);
        RevokeUserKeeps(s, NewPassword(spent, s.resets[reset].user, next), s.resets[reset].user, true);
      case SetSuspended(target, suspended) =>
        var changed := s.(accounts := s.accounts[target := s.accounts[target].(suspended := suspended)]);
        if suspended {
          RevokeUserKeeps(s, changed, target, true);
        } else {
          UntouchedKeeps(s, changed);
        }
      case RevokeSessions(target) => RevokeUserKeeps(s, s, target, true);
      case DeleteAccount(actor, _) =>
        var anonymous := s.(accounts := s.accounts[actor := s.accounts[actor].(deleted := true)],
                            byEmail := NamesOfOthers(s.byEmail, actor), byUsername := NamesOfOthers(s.byUsername, actor),
                            resets := ResetsOfOthers(s.resets, actor));
        RevokeUserKeeps(s, anonymous, actor, true);
    }
  }

  /** One operation, committed or rolled back, keeps the invariant and never revives a token or a family. */
  lemma StepKeeps(s: SessionState, op: Op, now: Time)
    requires Inv(s) && IsFresh(s, op)
    ensures Keeps(s, Step(s, op, now))
  {
    if Apply(s, op, now).Ok? {
      match op {
        case Register(email, username, password, user, device, family, pair) =>
          var registered := s.(byEmail := s.byEmail[email := user], byUsername := s.byUsername[username := user],
                               accounts := s.accounts[user := Login(password, false, false)]);
          StartKeeps(s, registered, user, device, family, pair, now);
        case LogIn(lookup, _, _, device, family, pair) =>
          StartKeeps(s, s, Lookup(s, lookup).value, device, family, pair, now);
        case LogInByCode(user, device, family, pair) => StartKeeps(s, s, user, device, family, pair, now);
        case Refresh(token, pair) => RotateKeeps(s, token, pair, now);
        case LogOut(token) => SignOutKeeps(s, token);
        case RevokeDevice(actor, device) => DropDeviceKeeps(s, actor, device);
        case _ => AccountOpKeeps(s, op, now);
      }
    }
  }

  // ----- runs -----

  datatype Call = Call(op: Op, now: Time)

  ghost predicate Possible(s: SessionState, calls: seq<Call>)
    decreases |calls|
  {
    calls == [] || (IsFresh(s, calls[0].op) && Possible(Step(s, calls[0].op, calls[0].now), calls[1..]))
  }

  function Run(s: SessionState, calls: seq<Call>): SessionState
    decreases |calls|
  {
    if calls == [] then s else Run(Step(s, calls[0].op, calls[0].now), calls[1..])
  }

  lemma {:induction false} RunKeeps(s: SessionState, calls: seq<Call>)
    requires Inv(s) && Possible(s, calls)
    ensures Keeps(s, Run(s, calls))
    decreases |calls|
  {
    if calls != [] {
      var next := Step(s, calls[0].op, calls[0].now);
      StepKeeps(s, calls[0].op, calls[0].now);
      RunKeeps(next, calls[1..]);
      EvolvesIsTransitive(s, next, Run(s, calls));
    }
  }

  // ----- results -----

  /** In every reachable state, authentication accepts exactly the present, unrevoked, unexpired access tokens:
      its checks of the device and of the account never decide. */
  lemma AuthenticationIsExact(calls: seq<Call>, token: TokenHash, now: Time)
    requires Possible(NOBODY, calls)
    ensures var s := Run(NOBODY, calls);
            var r := Authenticate(s, token, now);
            && (r.Ok? <==> token in s.access && !s.access[token].revoked && s.access[token].expiresAt > now)
            && (r.Ok? ==> r.value == (s.access[token].user, s.access[token].device))
            && (r.Err? ==> r.error == if token in s.access then SessionExpired else Unauthorized)
  {
    RunKeeps(NOBODY, calls);
    var s := Run(NOBODY, calls);
    if token in s.access {
      assert IsBacked(s.access[token], s.accounts, s.devices);
    }
  }

  /** No token of the family is accepted anywhere, now or ever again. */
  ghost predicate IsUseless(s: SessionState, family: FamilyId) {
    && (forall h, now :: h in s.access && s.access[h].family == family ==> Authenticate(s, h, now).Err?)
    && (forall h, pair, now :: (h in s.refresh && s.refresh[h].family == family) || (h in s.consumed && s.consumed[h] == family) ==>
          var r := Rotate(s, h, pair, now); r.Err? || r.value.1 == Refused(RefreshTokenReuse))
  }

  lemma DeadFamiliesAreUseless(s: SessionState, family: FamilyId)
    requires Inv(s) && IsDead(s, family)
    ensures IsUseless(s, family)
  {
  }

  /** Presenting a token that was ever consumed is refused, commits the end of its whole family despite the refusal,
      and no later run of any operations makes a token of that family usable again. */
  lemma ReuseEndsTheFamily(s: SessionState, token: TokenHash, between: seq<Call>, pair: Pair, now: Time, after: seq<Call>)
    requires Inv(s) && token in s.consumed && Possible(s, between)
    requires IsNewPair(Run(s, between), pair)
    requires Possible(Step(Run(s, between), Refresh(token, pair), now), after)
    ensures var family := s.consumed[token];
            var r := Rotate(Run(s, between), token, pair, now);
            && r.Ok? && r.value.1 == Refused(RefreshTokenReuse)
            && Step(Run(s, between), Refresh(token, pair), now) == r.value.0
            && IsDead(r.value.0, family) && IsUseless(Run(r.value.0, after), family)
  {
    var family := s.consumed[token];
    RunKeeps(s, between);
    var u := Run(s, between);
    StepKeeps(u, Refresh(token, pair), now);
    var t := Step(u, Refresh(token, pair), now);
    RevokeIsExact(u, OfFamily(family), token);
    assert IsKnown(u.access, family);
    KnownGrows(u.access, t.access);
    RunKeeps(t, after);
    DeadFamiliesAreUseless(Run(t, after), family);
  }

  /** A successful rotation consumes the presented token for ever, and its successor is the family's only refresh token. */
  lemma RotationIsLinear(s: SessionState, token: TokenHash, pair: Pair, now: Time, after: seq<Call>)
    requires Inv(s) && IsNewPair(s, pair)
    requires Rotate(s, token, pair, now).Ok? && Rotate(s, token, pair, now).value.1.Session?
    requires Possible(Rotate(s, token, pair, now).value.0, after)
    ensures var t := Rotate(s, token, pair, now).value.0;
            var family := s.refresh[token].family;
            && (forall h :: h in t.refresh && t.refresh[h].family == family <==> h == pair.refresh)
            && t.access[pair.access] == Token(s.refresh[token].user, s.refresh[token].device, family, now + ACCESS_SECONDS, false)
            && token in Run(t, after).consumed && token !in Run(t, after).refresh
  {
    StepKeeps(s, Refresh(token, pair), now);
    var t := Rotate(s, token, pair, now).value.0;
    assert t == Step(s, Refresh(token, pair), now);
    assert pair.refresh in t.refresh && t.refresh[pair.refresh].family == s.refresh[token].family;
    RunKeeps(t, after);
  }

  /** The operations that end sessions: which tokens each one ends when it succeeds. */
  function Ends(s: SessionState, op: Op): Option<Scope> {
    match op
    case LogOut(token) => if token in s.refresh then Some(OfFamily(s.refresh[token].family)) else None
    case RevokeDevice(_, device) => Some(OfDevice(device))
    case ChangePassword(actor, _, _) => Some(OfUser(actor))
    case ResetPassword(reset, _) => if reset in s.resets then Some(OfUser(s.resets[reset].user)) else None
    case SetSuspended(target, suspended) => if suspended then Some(OfUser(target)) else None
    case RevokeSessions(target) => Some(OfUser(target))
    case DeleteAccount(actor, _) => Some(OfUser(actor))
    case Refresh(token, _) => if token in s.consumed then Some(OfFamily(s.consumed[token])) else None
    case _ => None
  }

  lemma EndingRevokes(s: SessionState, op: Op, now: Time)
    requires Apply(s, op, now).Ok? && Ends(s, op).Some?
    ensures Step(s, op, now).access == Marked(s.access, Ends(s, op).value)
  {
  }

  /** Ending sessions is complete and final: every access token in scope is rejected at once and for ever,
      and tokens outside the scope are as they were. */
  lemma EndedSessionsStayEnded(s: SessionState, op: Op, now: Time, after: seq<Call>, h: TokenHash, later: Time)
    requires Inv(s) && IsFresh(s, op) && Apply(s, op, now).Ok? && Ends(s, op).Some?
    requires Possible(Step(s, op, now), after) && h in s.access
    ensures var t := Step(s, op, now);
            if Ends(s, op).value.Covers(s.access[h])
            then Authenticate(Run(t, after), h, later).Err?
            else h in t.access && t.access[h] == s.access[h]
  {
    var t := Step(s, op, now);
    StepKeeps(s, op, now);
    EndingRevokes(s, op, now);
    RunKeeps(t, after);
    assert Ages(t.access[h], Run(t, after).access[h]);
  }

  /** Every issued session works: until it expires, its access token authenticates as the user and device it was issued
      for, and that user's account is neither deleted nor suspended. */
  lemma IssuedSessionsAuthenticate(s: SessionState, op: Op, now: Time, later: Time)
    requires Inv(s) && IsFresh(s, op) && Apply(s, op, now).Ok? && Apply(s, op, now).value.1.Session?
    requires later < now + ACCESS_SECONDS
    ensures var (t, answer) := Apply(s, op, now).value;
            && Authenticate(t, answer.issued.pair.access, later) == Ok((answer.issued.user, answer.issued.device))
            && answer.issued.user in t.accounts && t.accounts[answer.issued.user].IsActive()
            && answer.issued.pair.refresh in t.refresh && t.refresh[answer.issued.pair.refresh].family == answer.issued.family
  {
    StepKeeps(s, op, now);
    var (t, answer) := Apply(s, op, now).value;
    IssuedAreStored(s, op, now);
    assert IsBacked(t.access[answer.issued.pair.access], t.accounts, t.devices);
  }

  lemma IssuedAreStored(s: SessionState, op: Op, now: Time)
    requires Apply(s, op, now).Ok? && Apply(s, op, now).value.1.Session?
    ensures var (t, answer) := Apply(s, op, now).value;
            var Issued(pair, user, device, family) := answer.issued;
            && pair.access in t.access && t.access[pair.access] == Token(user, device, family, now + ACCESS_SECONDS, false)
            && pair.refresh in t.refresh && t.refresh[pair.refresh] == Token(user, device, family, now + REFRESH_SECONDS, false)
  {
  }

  /** After a change or a reset of the password, the account's names sign in with the new password and with no other. */
  lemma NewPasswordTakesOver(s: SessionState, op: Op, now: Time, user: UserId, name: string, password: Password, device: DeviceId,
                             family: FamilyId, pair: Pair, later: Time)
    requires (op.ChangePassword? && op.actor == user)
             || (op.ResetPassword? && op.reset in s.resets && s.resets[op.reset].user == user)
    requires Apply(s, op, now).Ok? && s.accounts[user].IsActive() && Lookup(s, name) == Some(user)
    ensures var t := Step(s, op, now);
            SignIn(t, name, password, true, device, family, pair, later).Ok? <==> password == op.next
  {
  }

  /** A reset works once: what has been used, or has expired, changes no password again. */
  lemma ResetWorksOnce(s: SessionState, reset: TokenHash, next: Password, now: Time, again: Password, later: Time)
    requires UseReset(s, reset, next, now).Ok?
    ensures UseReset(UseReset(s, reset, next, now).value.0, reset, again, later) == Err(InvalidCredentials)
    ensures s.resets[reset].expiresAt <= later ==> UseReset(s, reset, again, later) == Err(InvalidCredentials)
  {
  }
}
