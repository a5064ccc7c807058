/** The account routes (routes/auth.js, routes/users.js) and the `auth` gate
    (middleware/auth.js) as one service over three collections: users, one-time
    passwords (models/Otp.js) and blacklisted tokens (models/TokenBlacklist.js). */
module Accounts {
  import opened Wrappers
  import opened Text
  import opened Collection
  import opened Tokens
  import opened Blacklist

  // ---------------------------------------------------------------- documents

  /** A user document; `password` holds the bcrypt hash. */
  datatype User = User(id: nat, name: string, email: string, username: string, password: string, role: string)

  function UserId(u: User): nat {
    u.id
  }

  /** A user as every response shows it: the password path is never selected. */
  datatype Profile = Profile(id: nat, name: string, email: string, username: string, role: string)

  function ProfileOf(u: User): (p: Profile)
    ensures p.id == u.id && p.name == u.name && p.email == u.email && p.username == u.username && p.role == u.role
  {
    Profile(u.id, u.name, u.email, u.username, u.role)
  }

  function Profiles(us: seq<User>): (ps: seq<Profile>)
    ensures |ps| == |us| && forall i :: 0 <= i < |us| ==> ps[i] == ProfileOf(us[i])
  {
    seq(|us|, i requires 0 <= i < |us| => ProfileOf(us[i]))
  }

  /** What register answers with. */
  datatype Summary = Summary(id: nat, name: string, email: string, username: string)

  /** The body fields the user routes read. */
  datatype UserFields = UserFields(
    name: Option<string>, email: Option<string>, username: Option<string>,
    password: Option<string>, role: Option<string>)

  /** An OTP document. */
  datatype OtpRecord = OtpRecord(email: string, code: string, expiresAt: int)

  function OtpEmail(o: OtpRecord): string {
    o.email
  }

  /** The `lowercase` and `trim` setters of the Otp email path. Mongoose casts query
      filters through the same setters, so lookups and stored values agree. */
  function OtpKey(email: string): string {
    Trim(Lower(email))
  }

  // ---------------------------------------------------------------- lookups

  /** The first user, in natural order, holding either the email or the username. */
  function ByEmailOrUsername(users: seq<User>, email: string, username: string): (r: Option<User>)
    ensures r.Some? ==> r.value in users && (r.value.email == email || r.value.username == username)
    ensures r.None? <==> forall i :: 0 <= i < |users| ==> users[i].email != email && users[i].username != username
  {
    First(users, (u: User) => u.email == email || u.username == username)
  }

  /** The first user holding the email. */
  function ByEmail(users: seq<User>, email: string): (r: Option<User>)
    ensures r.Some? ==> r.value in users && r.value.email == email
    ensures r.None? <==> forall i :: 0 <= i < |users| ==> users[i].email != email
  {
    First(users, (u: User) => u.email == email)
  }

  /** The first user holding the username. */
  function ByUsername(users: seq<User>, username: string): (r: Option<User>)
    ensures r.Some? ==> r.value in users && r.value.username == username
    ensures r.None? <==> forall i :: 0 <= i < |users| ==> users[i].username != username
  {
    First(users, (u: User) => u.username == username)
  }

  /** The OTP record stored under an email key. */
  function FindOtp(otps: seq<OtpRecord>, key: string): (r: Option<OtpRecord>)
    ensures r.Some? ==> r.value in otps && r.value.email == key
    ensures r.None? <==> forall i :: 0 <= i < |otps| ==> otps[i].email != key
  {
    First(otps, (o: OtpRecord) => o.email == key)
  }

  // ---------------------------------------------------------------- OTP store

  /** The upsert of an OTP record by email: the record for that
      email is replaced, or the record is inserted when there is none. */
  function UpsertOtp(otps: seq<OtpRecord>, rec: OtpRecord): (r: seq<OtpRecord>)
    requires Distinct(otps, OtpEmail)
    ensures Distinct(r, OtpEmail) && FindOtp(r, rec.email) == Some(rec)
    ensures forall o :: o in r <==> o == rec || (o in otps && o.email != rec.email)
  {
    if |otps| == 0 then [rec]
    else
      DistinctTail(otps, OtpEmail);
      assert forall o :: o in otps <==> o == otps[0] || o in otps[1..];
      if otps[0].email == rec.email then
        ConsDistinct(rec, otps[1..], OtpEmail);
        [rec] + otps[1..]
      else
        var rest := UpsertOtp(otps[1..], rec);
        ConsDistinct(otps[0], rest, OtpEmail);
        [otps[0]] + rest
  }

  /** Deleting the OTP record of an email: the record for that email goes. */
  function DeleteOtp(otps: seq<OtpRecord>, key: string): (r: seq<OtpRecord>)
    requires Distinct(otps, OtpEmail)
    ensures Distinct(r, OtpEmail) && FindOtp(r, key).None?
    ensures forall o :: o in r <==> o in otps && o.email != key
  {
    if |otps| == 0 then []
    else
      DistinctTail(otps, OtpEmail);
      assert forall o :: o in otps <==> o == otps[0] || o in otps[1..];
      if otps[0].email == key then
        otps[1..]
      else
        var rest := DeleteOtp(otps[1..], key);
        ConsDistinct(otps[0], rest, OtpEmail);
        [otps[0]] + rest
  }

  function OtpExpiry(o: OtpRecord): int {
    o.expiresAt
  }

  /** One pass of the TTL monitor over the Otp collection (`expires: 0`): records
      whose `expiresAt` has passed go, unexpired ones stay. */
  function SweepOtps(otps: seq<OtpRecord>, now: int): (r: seq<OtpRecord>)
    ensures forall o :: o in r <==> o in otps && now <= o.expiresAt
    ensures Distinct(otps, OtpEmail) ==> Distinct(r, OtpEmail)
  {
    var keep := o => now <= OtpExpiry(o);
    if Distinct(otps, OtpEmail) then
      WhereDistinct(otps, keep, OtpEmail);
      Where(otps, keep)
    else
      Where(otps, keep)
  }

  // ---------------------------------------------------------------- the gate

  const NoToken := "No token provided"
  const Invalidated := "Token invalidated (logged out)"
  const InvalidToken := "Invalid token"
  const AuthFailed := "Authentication failed"

  /** The outcome of the `auth` middleware: 401 with a message, or passing on with
      `req.user` and `req.token` set. */
  datatype Gate = Deny(message: string) | Pass(user: User, token: string)

  /** The user a verified payload names by id; a payload without an id finds nobody. */
  function UserOf(users: seq<User>, c: Claims): (r: Option<User>)
    ensures r.Some? ==> r.value in users && c.id == Some(r.value.id)
    ensures r.Some? <==> c.id.Some? && exists i :: 0 <= i < |users| && users[i].id == c.id.value
  {
    if c.id.Some? then Lookup(users, UserId, c.id.value) else None
  }

  /** middleware/auth.js in order: the Bearer header, then the blacklist, then
      jwt.verify (whose every failure becomes "Authentication failed"), then the user. */
  function Authenticate(jwt: Jwt, users: seq<User>, blacklist: seq<Entry>, now: nat, header: Option<string>): (g: Gate)
    ensures !HasBearerPrefix(header) ==> g == Deny(NoToken)
    ensures HasBearerPrefix(header) && BearerToken(header.value) in TokenSet(blacklist) ==> g == Deny(Invalidated)
    ensures g.Pass? <==>
      && HasBearerPrefix(header)
      && BearerToken(header.value) !in TokenSet(blacklist)
      && jwt.Verify(BearerToken(header.value), now).Some?
      && UserOf(users, jwt.Verify(BearerToken(header.value), now).value).Some?
    ensures g.Pass? ==> g.token == BearerToken(header.value) && g.user in users
    ensures g.Pass? ==> jwt.Verify(g.token, now).value.id == Some(g.user.id)
    ensures g.Deny? && HasBearerPrefix(header) && BearerToken(header.value) !in TokenSet(blacklist) ==>
      g.message == (if jwt.Verify(BearerToken(header.value), now).None? then AuthFailed else InvalidToken)
  {
    if !HasBearerPrefix(header) then Deny(NoToken)
    else
      var token := BearerToken(header.value);
      if token in TokenSet(blacklist) then Deny(Invalidated)
      else match jwt.Verify(token, now)
        case None => Deny(AuthFailed)
        case Some(c) =>
          match UserOf(users, c)
          case None => Deny(InvalidToken)
          case Some(u) => Pass(u, token)
  }

  /** A blacklist entry that lapses: once its `expiresAt` has passed, its token
      no longer verifies. */
  predicate Lapses(jwt: Jwt, e: Entry) {
    e.expiresAt.Some? && e.expiresAt.value >= 0 && jwt.Verify(e.token, e.expiresAt.value + 1).None?
  }

  predicate AllLapse(jwt: Jwt, entries: seq<Entry>) {
    forall i :: 0 <= i < |entries| ==> Lapses(jwt, entries[i])
  }

  /** Every token ever logged out is still on the blacklist or no longer verifies. */
  ghost predicate RevokedRejected(jwt: Jwt, revoked: set<string>, entries: seq<Entry>, now: nat) {
    forall t :: t in revoked ==> t in TokenSet(entries) || jwt.Verify(t, now).None?
  }

  /** With the corrected schema, sweeping the blacklist never readmits a logged-out
      token: an entry is only removed after its token has stopped verifying. */
  lemma {:induction false} SweepKeepsRevokedRejected(jwt: Jwt, revoked: set<string>, entries: seq<Entry>, now: nat)
    requires AllLapse(jwt, entries) && RevokedRejected(jwt, revoked, entries, now)
    ensures RevokedRejected(jwt, revoked, Blacklist.Sweep(entries, now), now)
    ensures AllLapse(jwt, Blacklist.Sweep(entries, now))
  {
    var kept := Blacklist.Sweep(entries, now);
    forall t | t in revoked && t !in TokenSet(kept)
      ensures jwt.Verify(t, now).None?
    {
      if t in TokenSet(entries) {
        var e :| e in entries && e.token == t;
        assert e !in kept;
        assert !Live(now, e);
        VerifyFailsForever(jwt, t, e.expiresAt.value + 1, now);
      }
    }
    forall i | 0 <= i < |kept| ensures Lapses(jwt, kept[i]) {
      assert kept[i] in entries;
    }
  }

  /** Time passing keeps logged-out tokens rejected. */
  lemma {:induction false} TickKeepsRevokedRejected(jwt: Jwt, revoked: set<string>, entries: seq<Entry>, now: nat, later: nat)
    requires RevokedRejected(jwt, revoked, entries, now) && now <= later
    ensures RevokedRejected(jwt, revoked, entries, later)
  {
    forall t | t in revoked && t !in TokenSet(entries)
      ensures jwt.Verify(t, later).None?
    {
      VerifyFailsForever(jwt, t, now, later);
    }
  }

  /** The expiry logout records: the token's `exp` in milliseconds when the payload
      has a truthy one, a day from now otherwise. */
  function LogoutExpiry(jwt: Jwt, token: string, now: nat): int {
    match jwt.decode(token)
    case Some(c) => if c.exp.Some? && c.exp.value != 0 then c.exp.value * 1000 else now + 24 * 60 * 60 * 1000
    case None => now + 24 * 60 * 60 * 1000
  }

  /** For a token that verifies now, the recorded expiry is when it stops verifying. */
  lemma LogoutEntryLapses(jwt: Jwt, token: string, now: nat)
    requires jwt.AlwaysExpires() && jwt.Verify(token, now).Some?
    ensures Lapses(jwt, StoreCorrected(token, now, LogoutExpiry(jwt, token, now)))
  {
    var c := jwt.decode(token).value;
    assert c.exp.Some?;
    var x := c.exp.value;
    assert now / 1000 < x;
    assert x != 0;
    assert (x * 1000 + 1) / 1000 == x;
  }

  /** Ids are distinct and below the counter. */
  predicate UsersValid(users: seq<User>, nextUserId: nat) {
    Ascending(users, UserId) && Below(users, UserId, nextUserId)
  }

  /** One entry per token, each lapsing with its token, and no logged-out token
      that still verifies is missing from the blacklist. */
  ghost predicate BlacklistValid(jwt: Jwt, blacklist: seq<Entry>, revoked: set<string>, clock: nat) {
    Distinct(blacklist, TokenOf) && AllLapse(jwt, blacklist) && RevokedRejected(jwt, revoked, blacklist, clock)
  }

  // ---------------------------------------------------------------- updates

  /** The update PUT /:id builds (and, without `role`, what PUT /profile assigns):
      each truthy field replaces the stored one, the email lower-cased and the
      password hashed; every other field keeps its value. */
  function Patched(u: User, body: UserFields, hasher: Hasher, salt: nat): (v: User)
    ensures v.id == u.id
    ensures v.name == (if Truthy(body.name) then body.name.value else u.name)
    ensures v.email == (if Truthy(body.email) then Lower(body.email.value) else u.email)
    ensures v.username == (if Truthy(body.username) then body.username.value else u.username)
    ensures v.password == (if Truthy(body.password) then hasher.hash(body.password.value, salt) else u.password)
    ensures v.role == (if Truthy(body.role) then body.role.value else u.role)
  {
    User(
      u.id,
      if Truthy(body.name) then body.name.value else u.name,
      if Truthy(body.email) then Lower(body.email.value) else u.email,
      if Truthy(body.username) then body.username.value else u.username,
      if Truthy(body.password) then hasher.hash(body.password.value, salt) else u.password,
      if Truthy(body.role) then body.role.value else u.role)
  }

  /** An empty body changes nothing. */
  lemma PatchEmpty(u: User, hasher: Hasher, salt: nat)
    ensures Patched(u, UserFields(None, None, None, None, None), hasher, salt) == u
  {
  }

  /** Patching is idempotent apart from the password, whose hash depends on the salt. */
  lemma PatchTwice(u: User, body: UserFields, hasher: Hasher, salt: nat)
    requires !Truthy(body.password)
    ensures Patched(Patched(u, body, hasher, salt), body, hasher, salt) == Patched(u, body, hasher, salt)
  {
    if Truthy(body.email) {
      LowerIsLowerCase(body.email.value);
    }
  }

  // ---------------------------------------------------------------- messages

  const AllFieldsRequired := "All fields required"
  const AlreadyRegistered := "Email or username already registered"
  const CredentialsRequired := "Identifier and password required"
  const InvalidCredentials := "Invalid credentials"
  const EmailRequired := "Email required"
  const OtpSent := "If this email is registered, you will receive an OTP"
  const OtpFieldsRequired := "Email and OTP required"
  const OtpMissing := "Invalid or expired OTP"
  const OtpWrong := "Invalid OTP"
  const OtpValid := "OTP valid"
  const ResetFieldsRequired := "Email, OTP and new password required"
  const UserNotFound := "User not found"
  const ResetDone := "Password reset successful"
  const LoggedOut := "Logged out"
  const Forbidden := "Forbidden"
  const EmailInUse := "Email already in use"
  const UsernameInUse := "Username already in use"

  function MinutesMs(m: nat): nat {
    m * 60 * 1000
  }

  /** A user just registered logs in by email with the password given at
      registration: the login lookup finds that user, and the stored hash matches.
      Registration has already ruled out another user with that email; the lemma
      also needs no user to hold the email text as a username, since login matches
      the identifier against usernames too. */
  lemma RegisteredUserLogsIn(hasher: Hasher, users: seq<User>, u: User, email: string, password: string, salt: nat)
    requires hasher.Sound()
    requires u.email == Lower(email) && u.password == hasher.hash(password, salt)
    requires forall i :: 0 <= i < |users| ==> users[i].email != Lower(email) && users[i].username != email
    ensures ByEmailOrUsername(users + [u], Lower(email), email) == Some(u)
    ensures hasher.compare(password, u.password)
  {
    var all := users + [u];
    var found := ByEmailOrUsername(all, Lower(email), email);
    assert all[|users|] == u;
    assert found.Some?;
    var k :| 0 <= k < |all| && all[k] == found.value;
    assert k == |users|;
  }

  /** A day in milliseconds, the default blacklist expiry. */
  const Day: nat := 24 * 60 * 60 * 1000

  // ---------------------------------------------------------------- service

  class AccountService {
    var users: seq<User>
    var nextUserId: nat
    var otps: seq<OtpRecord>
    var blacklist: seq<Entry>
    /** The abstract monotonic clock, in milliseconds. */
    var clock: nat
    /** Every token that has been logged out. */
    ghost var revoked: set<string>
    const jwt: Jwt
    const hasher: Hasher
    /** OTP_EXPIRES_MINUTES, 10 by default. */
    const otpMinutes: nat

    ghost predicate Valid()
      reads this
    {
      && jwt.AlwaysExpires()
      && UsersValid(users, nextUserId)
      && Distinct(otps, OtpEmail)
      && BlacklistValid(jwt, blacklist, revoked, clock)
    }

    constructor (jwt: Jwt, hasher: Hasher, otpMinutes: nat, now: nat)
      requires jwt.WellBehaved()
      ensures Valid()
      ensures this.jwt == jwt && this.hasher == hasher && this.otpMinutes == otpMinutes
      ensures users == [] && otps == [] && blacklist == [] && clock == now && revoked == {}
    {
      this.jwt := jwt;
      this.hasher := hasher;
      this.otpMinutes := otpMinutes;
      users := [];
      nextUserId := 0;
      otps := [];
      blacklist := [];
      clock := now;
      revoked := {};
    }

    /** The clock moves forward. */
    method Tick(now: nat)
      requires Valid() && clock <= now
      modifies this
      ensures Valid() && clock == now
      ensures users == old(users) && otps == old(otps) && blacklist == old(blacklist) && revoked == old(revoked)
      ensures nextUserId == old(nextUserId)
    {
      TickKeepsRevokedRejected(jwt, revoked, blacklist, clock, now);
      clock := now;
    }

    /** A pass of MongoDB's TTL monitor over both expiring collections. */
    method Sweep()
      requires Valid()
      modifies this
      ensures Valid()
      ensures otps == SweepOtps(old(otps), clock) && blacklist == Blacklist.Sweep(old(blacklist), clock)
      ensures users == old(users) && revoked == old(revoked)
      ensures nextUserId == old(nextUserId) && clock == old(clock)
    {
      SweepKeepsRevokedRejected(jwt, revoked, blacklist, clock);
      otps := SweepOtps(otps, clock);
      blacklist := Blacklist.Sweep(blacklist, clock);
    }

    /** Store a new state of the Otp collection. */
    method SetOtps(next: seq<OtpRecord>)
      requires Valid() && Distinct(next, OtpEmail)
      modifies this
      ensures Valid() && otps == next
      ensures users == old(users) && nextUserId == old(nextUserId) && blacklist == old(blacklist)
      ensures clock == old(clock) && revoked == old(revoked)
    {
      otps := next;
    }

    /** The upsert of forgot-password. */
    method UpsertOtpRecord(rec: OtpRecord)
      requires Valid()
      modifies this
      ensures Valid() && otps == UpsertOtp(old(otps), rec)
      ensures users == old(users) && nextUserId == old(nextUserId) && blacklist == old(blacklist)
      ensures clock == old(clock) && revoked == old(revoked)
    {
      otps := UpsertOtp(otps, rec);
    }

    /** Store a new state of the user collection. */
    method SetUsers(next: seq<User>)
      requires Valid() && UsersValid(next, nextUserId)
      modifies this
      ensures Valid() && users == next
      ensures otps == old(otps) && nextUserId == old(nextUserId) && blacklist == old(blacklist)
      ensures clock == old(clock) && revoked == old(revoked)
    {
      users := next;
    }

    /** POST /register. */
    method Register(name: Option<string>, email: Option<string>, username: Option<string>,
                    password: Option<string>, salt: nat) returns (r: Response<Summary>)
      requires Valid()
      modifies this
      ensures Valid() && otps == old(otps) && blacklist == old(blacklist) && clock == old(clock)
      ensures revoked == old(revoked)
      ensures r.Failure? ==> nextUserId == old(nextUserId)
      ensures r.Success? ==> nextUserId == old(nextUserId) + 1
      ensures !(Truthy(name) && Truthy(email) && Truthy(username) && Truthy(password)) ==>
        r == Failure(400, AllFieldsRequired) && users == old(users)
      ensures Truthy(name) && Truthy(email) && Truthy(username) && Truthy(password) ==>
        if ByEmailOrUsername(old(users), Lower(email.value), username.value).Some? then
          r == Failure(400, AlreadyRegistered) && users == old(users)
        else
          var u := User(old(nextUserId), name.value, Lower(email.value), username.value,
                        hasher.hash(password.value, salt), "admin");
          && r == Success(201, Summary(u.id, u.name, u.email, u.username))
          && users == old(users) + [u]
    {
      if !(Truthy(name) && Truthy(email) && Truthy(username) && Truthy(password)) {
        return Failure(400, AllFieldsRequired);
      }
      var existing := ByEmailOrUsername(users, Lower(email.value), username.value);
      if existing.Some? {
        return Failure(400, AlreadyRegistered);
      }
      var u := User(nextUserId, name.value, Lower(email.value), username.value,
                    hasher.hash(password.value, salt), "admin");
      AppendAscending(users, UserId, u);
      users := users + [u];
      nextUserId := nextUserId + 1;
      r := Success(201, Summary(u.id, u.name, u.email, u.username));
    }

    /** POST /login: by lower-cased email or exact username; an unknown user and a
        wrong password answer alike. */
    method Login(identifier: Option<string>, password: Option<string>) returns (r: Response<string>)
      requires Valid()
      ensures !(Truthy(identifier) && Truthy(password)) ==> r == Failure(400, CredentialsRequired)
      ensures Truthy(identifier) && Truthy(password) ==>
        var found := ByEmailOrUsername(users, Lower(identifier.value), identifier.value);
        if found.Some? && hasher.compare(password.value, found.value.password) then
          r == Success(200, jwt.sign(found.value.id, clock))
        else
          r == Failure(400, InvalidCredentials)
    {
      if !(Truthy(identifier) && Truthy(password)) {
        return Failure(400, CredentialsRequired);
      }
      var user := ByEmailOrUsername(users, Lower(identifier.value), identifier.value);
      if user.None? {
        return Failure(400, InvalidCredentials);
      }
      if !hasher.compare(password.value, user.value.password) {
        return Failure(400, InvalidCredentials);
      }
      r := Success(200, jwt.sign(user.value.id, clock));
    }

    /** POST /forgot-password: for a registered email, store a fresh code expiring
        `otpMinutes` from now, replacing any earlier one. The answer is the same
        whether or not the email is registered (and whether or not mail goes out). */
    method ForgotPassword(email: Option<string>, draw: real) returns (r: Response<string>)
      requires Valid() && 0.0 <= draw < 1.0
      modifies this
      ensures Valid() && users == old(users) && blacklist == old(blacklist) && clock == old(clock)
      ensures nextUserId == old(nextUserId) && revoked == old(revoked)
      ensures !Truthy(email) ==> r == Failure(400, EmailRequired) && otps == old(otps)
      ensures Truthy(email) ==> r == Success(200, OtpSent)
      ensures Truthy(email) && ByEmail(users, Lower(email.value)).None? ==> otps == old(otps)
      ensures Truthy(email) && ByEmail(users, Lower(email.value)).Some? ==>
        otps == UpsertOtp(old(otps), OtpRecord(OtpKey(email.value), GenOtpCode(draw), clock + MinutesMs(otpMinutes)))
    {
      if !Truthy(email) {
        return Failure(400, EmailRequired);
      }
      if ByEmail(users, Lower(email.value)).Some? {
        var rec := OtpRecord(OtpKey(email.value), GenOtpCode(draw), clock + MinutesMs(otpMinutes));
        UpsertOtpRecord(rec);
      }
      r := Success(200, OtpSent);
    }

    /** POST /validate-otp: compares the code and consumes nothing. */
    method ValidateOtp(email: Option<string>, otp: Option<string>) returns (r: Response<string>)
      requires Valid()
      ensures !(Truthy(email) && Truthy(otp)) ==> r == Failure(400, OtpFieldsRequired)
      ensures Truthy(email) && Truthy(otp) ==>
        var rec := FindOtp(otps, OtpKey(email.value));
        r == (if rec.None? then Failure(400, OtpMissing)
              else if rec.value.code != otp.value then Failure(400, OtpWrong)
              else Success(200, OtpValid))
    {
      if !(Truthy(email) && Truthy(otp)) {
        return Failure(400, OtpFieldsRequired);
      }
      var rec := FindOtp(otps, OtpKey(email.value));
      if rec.None? {
        return Failure(400, OtpMissing);
      }
      if rec.value.code != otp.value {
        return Failure(400, OtpWrong);
      }
      r := Success(200, OtpValid);
    }

    /** POST /reset-password: with the exact code, replace the user's hash and delete
        the OTP, so the code cannot be used again. */
    method ResetPassword(email: Option<string>, otp: Option<string>, newPassword: Option<string>, salt: nat)
      returns (r: Response<string>)
      requires Valid()
      modifies this
      ensures Valid() && blacklist == old(blacklist) && clock == old(clock) && nextUserId == old(nextUserId)
      ensures revoked == old(revoked)
      ensures r.Success? <==>
        && Truthy(email) && Truthy(otp) && Truthy(newPassword)
        && FindOtp(old(otps), OtpKey(email.value)).Some?
        && FindOtp(old(otps), OtpKey(email.value)).value.code == otp.value
        && ByEmail(old(users), Lower(email.value)).Some?
      ensures r.Success? ==>
        var u := ByEmail(old(users), Lower(email.value)).value;
        && r == Success(200, ResetDone)
        && users == ReplaceById(old(users), UserId, u.id, u.(password := hasher.hash(newPassword.value, salt)))
        && otps == DeleteOtp(old(otps), OtpKey(email.value))
        && FindOtp(otps, OtpKey(email.value)).None?
      ensures r.Failure? ==> r.status == 400 && users == old(users) && otps == old(otps)
      ensures !(Truthy(email) && Truthy(otp) && Truthy(newPassword)) ==> r == Failure(400, ResetFieldsRequired)
      ensures Truthy(email) && Truthy(otp) && Truthy(newPassword) && r.Failure? ==>
        var rec := FindOtp(old(otps), OtpKey(email.value));
        r.message == (if rec.None? then OtpMissing else if rec.value.code != otp.value then OtpWrong else UserNotFound)
    {
      if !(Truthy(email) && Truthy(otp) && Truthy(newPassword)) {
        return Failure(400, ResetFieldsRequired);
      }
      var key := OtpKey(email.value);
      var rec := FindOtp(otps, key);
      if rec.None? {
        return Failure(400, OtpMissing);
      }
      if rec.value.code != otp.value {
        return Failure(400, OtpWrong);
      }
      var user := ByEmail(users, Lower(email.value));
      if user.None? {
        return Failure(400, UserNotFound);
      }
      var u := user.value;
      var updated := u.(password := hasher.hash(newPassword.value, salt));
      ReplaceKeepsIds(users, UserId, u.id, updated);
      SetUsers(ReplaceById(users, UserId, u.id, updated));
      SetOtps(DeleteOtp(otps, key));
      r := Success(200, ResetDone);
    }

    /** The `auth` middleware in front of a protected route. A token that passes
        has never been logged out. */
    method Gate(header: Option<string>) returns (g: Gate)
      requires Valid()
      ensures g == Authenticate(jwt, users, blacklist, clock, header)
      ensures g.Pass? ==> g.token !in revoked
    {
      g := Authenticate(jwt, users, blacklist, clock, header);
    }

    /** POST /logout: blacklist the presented token until its own expiry. */
    method Logout(header: Option<string>) returns (r: Response<string>)
      requires Valid()
      modifies this
      ensures Valid() && users == old(users) && otps == old(otps) && clock == old(clock)
      ensures nextUserId == old(nextUserId)
      ensures var g := Authenticate(jwt, old(users), old(blacklist), old(clock), header);
        if g.Deny? then
          r == Failure(401, g.message) && blacklist == old(blacklist) && revoked == old(revoked)
        else
          && r == Success(200, LoggedOut)
          && blacklist == old(blacklist) + [StoreCorrected(g.token, clock, LogoutExpiry(jwt, g.token, clock))]
          && revoked == old(revoked) + {g.token}
    {
      var g := Gate(header);
      if g.Deny? {
        return Failure(401, g.message);
      }
      var token := g.token;
      var entry := StoreCorrected(token, clock, LogoutExpiry(jwt, token, clock));
      LogoutEntryLapses(jwt, token, clock);
      AppendDistinct(blacklist, TokenOf, entry);
      blacklist := blacklist + [entry];
      revoked := revoked + {token};
      r := Success(200, LoggedOut);
    }

    /** GET /api/users: admins see every user, without passwords. */
    method ListUsers(header: Option<string>) returns (r: Response<seq<Profile>>)
      requires Valid()
      ensures var g := Authenticate(jwt, users, blacklist, clock, header);
        r == (if g.Deny? then Failure(401, g.message)
              else if g.user.role != "admin" then Failure(403, Forbidden)
              else Success(200, Profiles(users)))
    {
      var g := Gate(header);
      if g.Deny? {
        return Failure(401, g.message);
      }
      if g.user.role != "admin" {
        return Failure(403, Forbidden);
      }
      r := Success(200, Profiles(users));
    }

    /** PUT /api/users/:id: an admin applies the truthy body fields to any user. */
    method AdminUpdate(header: Option<string>, id: nat, body: UserFields, salt: nat)
      returns (r: Response<Profile>)
      requires Valid()
      modifies this
      ensures Valid() && otps == old(otps) && blacklist == old(blacklist) && clock == old(clock)
      ensures nextUserId == old(nextUserId) && revoked == old(revoked)
      ensures var g := Authenticate(jwt, old(users), blacklist, clock, header);
        var target := Lookup(old(users), UserId, id);
        if g.Deny? then r == Failure(401, g.message) && users == old(users)
        else if g.user.role != "admin" then r == Failure(403, Forbidden) && users == old(users)
        else if target.None? then r == Failure(404, UserNotFound) && users == old(users)
        else
          var v := Patched(target.value, body, hasher, salt);
          r == Success(200, ProfileOf(v)) && users == ReplaceById(old(users), UserId, id, v)
    {
      var g := Gate(header);
      if g.Deny? {
        return Failure(401, g.message);
      }
      if g.user.role != "admin" {
        return Failure(403, Forbidden);
      }
      var target := Lookup(users, UserId, id);
      if target.None? {
        return Failure(404, UserNotFound);
      }
      var v := BuildUpdate(target.value, body, salt);
      ReplaceKeepsIds(users, UserId, id, v);
      SetUsers(ReplaceById(users, UserId, id, v));
      r := Success(200, ProfileOf(v));
    }

    /** The field-by-field update of PUT /:id, assigned one truthy field at a time. */
    method BuildUpdate(u: User, body: UserFields, salt: nat) returns (v: User)
      ensures v == Patched(u, body, hasher, salt)
    {
      v := u;
      if Truthy(body.name) {
        v := v.(name := body.name.value);
      }
      if Truthy(body.email) {
        v := v.(email := Lower(body.email.value));
      }
      if Truthy(body.username) {
        v := v.(username := body.username.value);
      }
      if Truthy(body.role) {
        v := v.(role := body.role.value);
      }
      if Truthy(body.password) {
        v := v.(password := hasher.hash(body.password.value, salt));
      }
    }

    /** GET /api/users/profile: the caller's own profile. */
    method GetProfile(header: Option<string>) returns (r: Response<Profile>)
      requires Valid()
      ensures var g := Authenticate(jwt, users, blacklist, clock, header);
        r == (if g.Deny? then Failure(401, g.message) else Success(200, ProfileOf(g.user)))
    {
      var g := Gate(header);
      if g.Deny? {
        return Failure(401, g.message);
      }
      r := Success(200, ProfileOf(g.user));
    }

    /** PUT /api/users/profile: the caller changes their own name, email, username
        or password; an email or username held by someone else is refused. The
        email comparison with the caller's own is after lower-casing. */
    method UpdateProfile(header: Option<string>, body: UserFields, salt: nat) returns (r: Response<Profile>)
      requires Valid()
      modifies this
      ensures Valid() && otps == old(otps) && blacklist == old(blacklist) && clock == old(clock)
      ensures nextUserId == old(nextUserId) && revoked == old(revoked)
      ensures var g := Authenticate(jwt, old(users), blacklist, clock, header);
        if g.Deny? then r == Failure(401, g.message) && users == old(users)
        else if EmailTaken(old(users), g.user, body) then r == Failure(400, EmailInUse) && users == old(users)
        else if UsernameTaken(old(users), g.user, body) then r == Failure(400, UsernameInUse) && users == old(users)
        else
          var v := Patched(g.user, body.(role := None), hasher, salt);
          r == Success(200, ProfileOf(v)) && users == ReplaceById(old(users), UserId, g.user.id, v)
    {
      var g := Gate(header);
      if g.Deny? {
        return Failure(401, g.message);
      }
      var user := g.user;
      if EmailTaken(users, user, body) {
        return Failure(400, EmailInUse);
      }
      if UsernameTaken(users, user, body) {
        return Failure(400, UsernameInUse);
      }
      var v := BuildUpdate(user, body.(role := None), salt);
      ReplaceKeepsIds(users, UserId, user.id, v);
      SetUsers(ReplaceById(users, UserId, user.id, v));
      r := Success(200, ProfileOf(v));
    }
  }

  /** The email check of PUT /profile: a truthy email that differs from the caller's
      own after lower-casing, and that some user already holds. */
  predicate EmailTaken(users: seq<User>, caller: User, body: UserFields) {
    Truthy(body.email) && Lower(body.email.value) != caller.email && ByEmail(users, Lower(body.email.value)).Some?
  }

  predicate UsernameTaken(users: seq<User>, caller: User, body: UserFields) {
    Truthy(body.username) && body.username.value != caller.username && ByUsername(users, body.username.value).Some?
  }
}
