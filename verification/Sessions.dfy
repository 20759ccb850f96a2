/** Session tokens: accounts, devices, and families of rotating refresh tokens with reuse detection.
    A token string is identified with its hash, a password with its stored hash. */
module Sessions {
  import opened Domain

  type DeviceId = nat
  type FamilyId = nat
  type TokenHash = nat
  type Password = string

  datatype Login = Login(password: Password, deleted: bool, suspended: bool) {
    predicate IsActive() {
      !deleted && !suspended
    }
  }

  datatype Device = Device(user: UserId, revoked: bool)

  datatype Token = Token(user: UserId, device: DeviceId, family: FamilyId, expiresAt: Time, revoked: bool)

  datatype Reset = Reset(user: UserId, expiresAt: Time, consumed: bool)

  datatype SessionState = SessionState(
    accounts: map<UserId, Login>,
    byEmail: map<string, UserId>,
    byUsername: map<string, UserId>,
    access: map<TokenHash, Token>,
    refresh: map<TokenHash, Token>,
    consumed: map<TokenHash, FamilyId>,
    devices: map<DeviceId, Device>,
    resets: map<TokenHash, Reset>)

  const NOBODY := SessionState(map[], map[], map[], map[], map[], map[], map[], map[])

  /** The random values one new session uses. */
  datatype Pair = Pair(access: TokenHash, refresh: TokenHash)

  datatype Issued = Issued(pair: Pair, user: UserId, device: DeviceId, family: FamilyId)

  /** What a committed operation answers: a refresh can commit and still be refused. */
  datatype Answer = Done | Session(issued: Issued) | Refused(error: Error)

  type Outcome = Result<(SessionState, Answer)>

  const ACCESS_SECONDS := 15 * 60
  const REFRESH_SECONDS := 30 * 86400
  const RESET_SECONDS := 15 * 60

  datatype Op =
    | Register(email: string, username: string, password: Password, user: UserId, device: DeviceId, family: FamilyId, pair: Pair)
    | LogIn(lookup: string, password: Password, secondFactor: bool, device: DeviceId, family: FamilyId, pair: Pair)
    | LogInByCode(user: UserId, device: DeviceId, family: FamilyId, pair: Pair)
    | Refresh(token: TokenHash, pair: Pair)
    | LogOut(token: TokenHash)
    | RevokeDevice(actor: UserId, device: DeviceId)
    | ChangePassword(actor: UserId, current: Password, next: Password)
    | RequestReset(email: string, reset: TokenHash)
    | ResetPassword(reset: TokenHash, next: Password)
    | SetSuspended(target: UserId, suspended: bool)
    | RevokeSessions(target: UserId)
    | DeleteAccount(actor: UserId, password: Password)

  // ----- revocation -----

  datatype Scope = OfFamily(family: FamilyId) | OfDevice(device: DeviceId) | OfUser(user: UserId) {
    predicate Covers(token: Token) {
      match this
      case OfFamily(f) => token.family == f
      case OfDevice(d) => token.device == d
      case OfUser(u) => token.user == u
    }
  }

  function Mark(token: Token, scope: Scope): Token {
    token.(revoked := token.revoked || scope.Covers(token))
  }

  function Marked(tokens: map<TokenHash, Token>, scope: Scope): map<TokenHash, Token> {
    map h | h in tokens :: Mark(tokens[h], scope)
  }

  function Revoke(s: SessionState, scope: Scope): SessionState {
    s.(access := Marked(s.access, scope), refresh := Marked(s.refresh, scope))
  }

  function WithoutDevices(devices: map<DeviceId, Device>, user: UserId): map<DeviceId, Device> {
    map d | d in devices :: devices[d].(revoked := devices[d].revoked || devices[d].user == user)
  }

  /** `revoke_user_sessions`: the tokens, and with `devicesToo` the devices as well. */
  function RevokeUser(s: SessionState, user: UserId, devicesToo: bool): SessionState {
    Revoke(s, OfUser(user)).(devices := if devicesToo then WithoutDevices(s.devices, user) else s.devices)
  }

  // ----- issuing -----

  function Issue(s: SessionState, user: UserId, device: DeviceId, family: FamilyId, pair: Pair, now: Time): SessionState {
    s.(access := s.access[pair.access := Token(user, device, family, now + ACCESS_SECONDS, false)],
       refresh := s.refresh[pair.refresh := Token(user, device, family, now + REFRESH_SECONDS, false)])
  }

  function Start(s: SessionState, user: UserId, device: DeviceId, family: FamilyId, pair: Pair, now: Time): Outcome {
    var added := s.(devices := s.devices[device := Device(user, false)]);
    Ok((Issue(added, user, device, family, pair, now), Session(Issued(pair, user, device, family))))
  }

  // ----- operations -----

  function SignUp(s: SessionState, email: string, username: string, password: Password, user: UserId, device: DeviceId,
                  family: FamilyId, pair: Pair, now: Time): Outcome
  {
    var _ :- Need(email !in s.byEmail && username !in s.byUsername, AccountConflict);
    var registered := s.(byEmail := s.byEmail[email := user], byUsername := s.byUsername[username := user],
                         accounts := s.accounts[user := Login(password, false, false)]);
    Start(registered, user, device, family, pair, now)
  }

  function Lookup(s: SessionState, name: string): Option<UserId> {
    if name in s.byEmail then Some(s.byEmail[name])
    else if name in s.byUsername then Some(s.byUsername[name])
    else None
  }

  predicate Verifies(s: SessionState, user: Option<UserId>, password: Password) {
    user.Some? && user.value in s.accounts && s.accounts[user.value].IsActive() && s.accounts[user.value].password == password
  }

  function SignIn(s: SessionState, lookup: string, password: Password, secondFactor: bool, device: DeviceId, family: FamilyId,
                  pair: Pair, now: Time): Outcome
  {
    var user := Lookup(s, lookup);
    var _ :- Need(Verifies(s, user, password), InvalidCredentials);
    var _ :- Need(secondFactor, SecondFactorRejected);
    Start(s, user.value, device, family, pair, now)
  }

  function SignInByCode(s: SessionState, user: UserId, device: DeviceId, family: FamilyId, pair: Pair, now: Time): Outcome {
    var _ :- Need(user in s.accounts && s.accounts[user].IsActive(), Unauthorized);
    Start(s, user, device, family, pair, now)
  }

  /** Rotation. Reuse commits the revocation of the family together with a refusal. */
  function Rotate(s: SessionState, token: TokenHash, pair: Pair, now: Time): Outcome {
    if token in s.consumed then Ok((Revoke(s, OfFamily(s.consumed[token])), Refused(RefreshTokenReuse)))
    else
      var _ :- Need(token in s.refresh, Unauthorized);
      var record := s.refresh[token];
      var _ :- Need(!record.revoked && record.expiresAt > now, SessionExpired);
      var _ :- Need(record.user in s.accounts && !s.accounts[record.user].deleted, Unauthorized);
      var spent := s.(refresh := s.refresh - {token}, consumed := s.consumed[token := record.family]);
      Ok((Issue(spent, record.user, record.device, record.family, pair, now),
          Session(Issued(pair, record.user, record.device, record.family))))
  }

  function SignOut(s: SessionState, token: TokenHash): Outcome {
    if token !in s.refresh then Ok((s, Done))
    else
      var family := s.refresh[token].family;
      var spent := s.(refresh := s.refresh - {token});
      Ok((Revoke(spent, OfFamily(family)).(consumed := s.consumed[token := family]), Done))
  }

  function DropDevice(s: SessionState, actor: UserId, device: DeviceId): Outcome {
    var _ :- Need(device in s.devices && s.devices[device].user == actor, NotFound);
    Ok((Revoke(s, OfDevice(device)).(devices := s.devices[device := s.devices[device].(revoked := true)]), Done))
  }

  function NewPassword(s: SessionState, user: UserId, next: Password): SessionState
    requires user in s.accounts
  {
    s.(accounts := s.accounts[user := s.accounts[user].(password := next)])
  }

  function Repassword(s: SessionState, actor: UserId, current: Password, next: Password): Outcome {
    var _ :- Need(actor in s.accounts, NotFound);
    var _ :- Need(s.accounts[actor].password == current, InvalidCredentials);
    Ok((RevokeUser(NewPassword(s, actor, next), actor, false), Done))
  }

  /** Every pending reset of the user is dropped; spent and expired ones stay. */
  function OtherResets(resets: map<TokenHash, Reset>, user: UserId, now: Time): map<TokenHash, Reset> {
    map r | r in resets && (resets[r].user != user || resets[r].consumed || resets[r].expiresAt <= now) :: resets[r]
  }

  function AskReset(s: SessionState, email: string, reset: TokenHash, now: Time): Outcome {
    if email !in s.byEmail then Ok((s, Done))
    else
      var user := s.byEmail[email];
      Ok((s.(resets := OtherResets(s.resets, user, now)[reset := Reset(user, now + RESET_SECONDS, false)]), Done))
  }

  function UseReset(s: SessionState, reset: TokenHash, next: Password, now: Time): Outcome {
    var _ :- Need(reset in s.resets && !s.resets[reset].consumed && s.resets[reset].expiresAt > now, InvalidCredentials);
    var user := s.resets[reset].user;
    var _ :- Need(user in s.accounts, NotFound);
    var spent := s.(resets := s.resets[reset := s.resets[reset].(consumed := true)]);
    Ok((RevokeUser(NewPassword(spent, user, next), user, true), Done))
  }

  function Suspend(s: SessionState, target: UserId, suspended: bool): Outcome {
    var _ :- Need(target in s.accounts && !s.accounts[target].deleted, NotFound);
    var changed := s.(accounts := s.accounts[target := s.accounts[target].(suspended := suspended)]);
    Ok((if suspended then RevokeUser(changed, target, true) else changed, Done))
  }

  function RevokeAll(s: SessionState, target: UserId): Outcome {
    var _ :- Need(target in s.accounts && !s.accounts[target].deleted, NotFound);
    Ok((RevokeUser(s, target, true), Done))
  }

  function NamesOfOthers(names: map<string, UserId>, user: UserId): map<string, UserId> {
    map n | n in names && names[n] != user :: names[n]
  }

  function ResetsOfOthers(resets: map<TokenHash, Reset>, user: UserId): map<TokenHash, Reset> {
    map r | r in resets && resets[r].user != user :: resets[r]
  }

  function Erase(s: SessionState, actor: UserId, password: Password): Outcome {
    var _ :- Need(actor in s.accounts && !s.accounts[actor].deleted, NotFound);
    var _ :- Need(s.accounts[actor].password == password, InvalidCredentials);
    var anonymous := s.(accounts := s.accounts[actor := s.accounts[actor].(deleted := true)],
                        byEmail := NamesOfOthers(s.byEmail, actor), byUsername := NamesOfOthers(s.byUsername, actor),
                        resets := ResetsOfOthers(s.resets, actor));
    Ok((RevokeUser(anonymous, actor, true), Done))
  }

  function Apply(s: SessionState, op: Op, now: Time): Outcome {
    match op
    case Register(email, username, password, user, device, family, pair) =>
      SignUp(s, email, username, password, user, device, family, pair, now)
    case LogIn(lookup, password, secondFactor, device, family, pair) =>
      SignIn(s, lookup, password, secondFactor, device, family, pair, now)
    case LogInByCode(user, device, family, pair) => SignInByCode(s, user, device, family, pair, now)
    case Refresh(token, pair) => Rotate(s, token, pair, now)
    case LogOut(token) => SignOut(s, token)
    case RevokeDevice(actor, device) => DropDevice(s, actor, device)
    case ChangePassword(actor, current, next) => Repassword(s, actor, current, next)
    case RequestReset(email, reset) => AskReset(s, email, reset, now)
    case ResetPassword(reset, next) => UseReset(s, reset, next, now)
    case SetSuspended(target, suspended) => Suspend(s, target, suspended)
    case RevokeSessions(target) => RevokeAll(s, target)
    case DeleteAccount(actor, password) => Erase(s, actor, password)
  }

  /** One committed or rolled-back operation. */
  function Step(s: SessionState, op: Op, now: Time): SessionState {
    var r := Apply(s, op, now);
    if r.Ok? then r.value.0 else s
  }

  /** `authenticate_identity`, with all of its checks. */
  function Authenticate(s: SessionState, token: TokenHash, now: Time): Result<(UserId, DeviceId)> {
    var _ :- Need(token in s.access, Unauthorized);
    var record := s.access[token];
    var _ :- Need(!record.revoked && record.expiresAt > now, SessionExpired);
    var _ :- Need(record.device in s.devices && !s.devices[record.device].revoked, SessionExpired);
    var _ :- Need(record.user in s.accounts && s.accounts[record.user].IsActive(), SessionExpired);
    Ok((record.user, record.device))
  }

  // ----- fresh values -----

  ghost predicate IsNewPair(s: SessionState, pair: Pair) {
    pair.access !in s.access && pair.refresh !in s.refresh && pair.refresh !in s.consumed
  }

  ghost predicate IsNewFamily(s: SessionState, family: FamilyId) {
    && (forall h :: h in s.access ==> s.access[h].family != family)
    && (forall h :: h in s.refresh ==> s.refresh[h].family != family)
    && (forall h :: h in s.consumed ==> s.consumed[h] != family)
  }

  /** Random tokens and generated ids never collide with the ones in use. */
  ghost predicate IsFresh(s: SessionState, op: Op) {
    match op
    case Register(_, _, _, user, device, family, pair) =>
      user !in s.accounts && device !in s.devices && IsNewFamily(s, family) && IsNewPair(s, pair)
    case LogIn(_, _, _, device, family, pair) => device !in s.devices && IsNewFamily(s, family) && IsNewPair(s, pair)
    case LogInByCode(_, device, family, pair) => device !in s.devices && IsNewFamily(s, family) && IsNewPair(s, pair)
    case Refresh(_, pair) => IsNewPair(s, pair)
    case _ => true
  }
}
