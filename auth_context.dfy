/** The session holder and the local credential store behind it. Login
    first looks for a matching record in the locally stored user list and
    only asks the authentication server when there is none; registration
    checks the local list for the e-mail and otherwise defers to the
    server. The server's reply is an input to these methods. */
module AuthContext {
  import opened Types
  import opened Text
  import opened Seqs
  import opened Storage

  const SeedAdminId := "admin-001"
  const SeedAdminEmail := "admin@medvision.ai"
  const SeedAdminPassword := "admin123"

  const BlockedMessage := "Your account has been blocked. Please contact support."
  const DuplicateEmailMessage := "Email already registered"
  const ServerErrorMessage := "Server error"

  /** What a call to the authentication server produced: a 2xx reply with
      a user and a token, a non-2xx reply with a message, or a failure to
      reach or read the server. */
  datatype AuthOutcome =
    | AuthOk(user: UserRecord, token: string)
    | AuthRejected(message: string)
    | NetworkError

  /** `{ success, error? }` */
  datatype AuthResult = AuthResult(success: bool, error: Option<string>)

  /** The account created on first run: an unblocked admin with the seed
      credentials. */
  function SeedAdmin(now: Stamp): (r: UserRecord)
    ensures r.role == Admin && !IsBlocked(r) && r.createdAt == now
    ensures r.email == SeedAdminEmail && r.password == Some(SeedAdminPassword)
  {
    UserRecord(SeedAdminId, "System Admin", SeedAdminEmail, Admin, now, None, Some(SeedAdminPassword))
  }

  /** `initializeUsers`: the stored list if the key is set, otherwise a
      list holding only the seed admin. */
  function InitialUsers(stored: Option<seq<UserRecord>>, now: Stamp): (r: seq<UserRecord>)
    ensures stored.Some? ==> r == stored.value
    ensures stored.None? ==> |r| == 1 && r[0].id == SeedAdminId && r[0].email == SeedAdminEmail
                             && r[0].password == Some(SeedAdminPassword) && r[0].role == Admin
  {
    if stored.Some? then stored.value else [SeedAdmin(now)]
  }

  function AdminCount(users: seq<UserRecord>): nat {
    if users == [] then 0 else (if users[0].role == Admin then 1 else 0) + AdminCount(users[1..])
  }

  /** Running the initialisation again, at any later time, changes
      nothing, so a first run followed by any number of reruns leaves
      exactly one admin. */
  lemma InitializeIsIdempotent(stored: Option<seq<UserRecord>>, first: Stamp, later: Stamp)
    ensures InitialUsers(Some(InitialUsers(stored, first)), later) == InitialUsers(stored, first)
    ensures stored.None? ==> AdminCount(InitialUsers(stored, first)) == 1
  {
    if stored.None? {
      assert InitialUsers(stored, first)[1..] == [];
    }
  }

  /** `initializeUsers` against storage: writes the seed list only when
      the users key is not set. */
  method InitializeUsers(storage: LocalStorage, now: Stamp) returns (users: seq<UserRecord>)
    modifies storage`users
    ensures users == InitialUsers(old(storage.users), now)
    ensures storage.users == Some(users)
    ensures old(storage.users).Some? ==> storage.users == old(storage.users)
  {
    if storage.users.None? {
      var adminUser := SeedAdmin(now);
      storage.users := Some([adminUser]);
      users := [adminUser];
    } else {
      users := storage.users.value;
    }
  }

  /** `JSON.parse(localStorage.getItem(USERS) || '[]')` */
  function LocalUsers(stored: Option<seq<UserRecord>>): seq<UserRecord> {
    stored.GetOr([])
  }

  /** E-mails compare case-insensitively. */
  predicate SameEmail(u: UserRecord, email: string) {
    Lower(u.email) == Lower(email)
  }

  /** The login predicate: e-mail equal up to case, password exactly equal
      (a record without a password never matches). */
  predicate CredentialsMatch(u: UserRecord, email: string, password: string) {
    SameEmail(u, email) && u.password == Some(password)
  }

  /** `users.find(...)` for the credentials: the first matching record. */
  function FindByCredentials(users: seq<UserRecord>, email: string, password: string): (r: Option<UserRecord>)
    ensures r.None? <==> forall i :: 0 <= i < |users| ==> !CredentialsMatch(users[i], email, password)
    ensures r.Some? ==> exists k :: 0 <= k < |users| && users[k] == r.value
                                    && CredentialsMatch(users[k], email, password)
                                    && forall j :: 0 <= j < k ==> !CredentialsMatch(users[j], email, password)
  {
    var k := FindIndex(users, (u: UserRecord) => CredentialsMatch(u, email, password));
    if k < 0 then None else Some(users[k])
  }

  /** The session copy of a record: everything but the password. */
  function WithoutPassword(u: UserRecord): UserRecord {
    u.(password := None)
  }

  /** What the local stage of login decides. */
  datatype LocalLogin = NoLocalMatch | LocalBlocked | LocalAccepted(session: UserRecord)

  /** The local stage of login: refuse a blocked match, accept an
      unblocked one with its password removed, and fall through to the
      server when nothing matches. */
  function LocalLoginOutcome(users: seq<UserRecord>, email: string, password: string): (r: LocalLogin)
    ensures r == NoLocalMatch <==> FindByCredentials(users, email, password).None?
    ensures r == LocalBlocked <==> (FindByCredentials(users, email, password).Some? && IsBlocked(FindByCredentials(users, email, password).value))
    ensures r.LocalAccepted? ==> r.session.password == None && !IsBlocked(r.session)
                                 && r.session.(password := FindByCredentials(users, email, password).value.password)
                                    == FindByCredentials(users, email, password).value
  {
    match FindByCredentials(users, email, password)
    case None => NoLocalMatch
    case Some(u) => if IsBlocked(u) then LocalBlocked else LocalAccepted(WithoutPassword(u))
  }

  /** The result reported for a server reply. */
  function ServerResult(outcome: AuthOutcome): (r: AuthResult)
    ensures r.success <==> outcome.AuthOk?
    ensures r.success <==> r.error.None?
    ensures outcome.AuthRejected? ==> r.error == Some(outcome.message)
    ensures outcome.NetworkError? ==> r.error == Some(ServerErrorMessage)
  {
    match outcome
    case AuthOk(_, _) => AuthResult(true, None)
    case AuthRejected(m) => AuthResult(false, Some(m))
    case NetworkError => AuthResult(false, Some(ServerErrorMessage))
  }

  /** `users.some(u => lower(u.email) === lower(email))` */
  predicate EmailRegistered(users: seq<UserRecord>, email: string) {
    Seqs.Some(users, (u: UserRecord) => SameEmail(u, email))
  }

  /** On a fresh install the seed credentials log in locally, as the seed
      admin without its password, and that session is an admin's. */
  lemma SeedAdminCanLogIn(now: Stamp)
    ensures LocalLoginOutcome(InitialUsers(None, now), SeedAdminEmail, SeedAdminPassword)
            == LocalAccepted(WithoutPassword(SeedAdmin(now)))
    ensures WithoutPassword(SeedAdmin(now)).role == Admin
  {
    var users := InitialUsers(None, now);
    assert CredentialsMatch(users[0], SeedAdminEmail, SeedAdminPassword);
  }

  /** Login treats two spellings of an address that differ only in case
      alike: same record found, same decision. */
  lemma LoginIgnoresEmailCase(users: seq<UserRecord>, e1: string, e2: string, password: string)
    requires Lower(e1) == Lower(e2)
    ensures LocalLoginOutcome(users, e1, password) == LocalLoginOutcome(users, e2, password)
  {
  }

  /** Whoever the local stage of login finds has an address registration
      would refuse. */
  lemma LocalMatchIsRegistered(users: seq<UserRecord>, email: string, password: string)
    requires LocalLoginOutcome(users, email, password) != NoLocalMatch
    ensures EmailRegistered(users, email)
  {
  }

  class AuthProvider {
    /** The session user: `null` when nobody is logged in. */
    var user: Option<UserRecord>
    var isLoading: bool
    const storage: LocalStorage

    /** Mounting: initialise the user list, then restore the session from
        the current-user key if it is set. */
    constructor (storage: LocalStorage, now: Stamp)
      modifies storage`users
      ensures this.storage == storage
      ensures storage.users == Some(InitialUsers(old(storage.users), now))
      ensures user == storage.currentUser
      ensures !isLoading
    {
      this.storage := storage;
      user := None;
      isLoading := true;
      new;
      var _ := InitializeUsers(storage, now);
      if storage.currentUser.Some? {
        user := storage.currentUser;
      }
      isLoading := false;
    }

    /** `isAdmin`: someone is logged in, with the admin role. */
    predicate IsAdmin()
      reads this
    {
      user.Some? && user.value.role == Admin
    }

    /** `login`: the local stage decides when some record matches; the
        server is consulted only when none does. The user list is never
        written. */
    method Login(email: string, password: string, server: AuthOutcome) returns (r: AuthResult)
      modifies this`user, storage`currentUser, storage`token
      ensures match LocalLoginOutcome(LocalUsers(storage.users), email, password)
        case LocalBlocked =>
          && r == AuthResult(false, Some(BlockedMessage))
          && user == old(user) && storage.currentUser == old(storage.currentUser)
          && storage.token == old(storage.token)
        case LocalAccepted(session) =>
          && r == AuthResult(true, None)
          && user == Some(session) && storage.currentUser == Some(session)
          && storage.token == old(storage.token)
          && (IsAdmin() <==> FindByCredentials(LocalUsers(storage.users), email, password).value.role == Admin)
        case NoLocalMatch =>
          && r == ServerResult(server)
          && (server.AuthOk? ==> user == Some(server.user) && storage.currentUser == Some(server.user)
                                 && storage.token == Some(server.token))
          && (!server.AuthOk? ==> user == old(user) && storage.currentUser == old(storage.currentUser)
                                  && storage.token == old(storage.token))
    {
      var users := LocalUsers(storage.users);
      var found := FindByCredentials(users, email, password);
      if found.Some? {
        var u := found.value;
        if IsBlocked(u) {
          return AuthResult(false, Some(BlockedMessage));
        }
        var userWithoutPassword := WithoutPassword(u);
        user := Some(userWithoutPassword);
        storage.currentUser := Some(userWithoutPassword);
        return AuthResult(true, None);
      }
      r := AcceptServerReply(server);
    }

    /** The tail shared by login and register: apply the server's reply. */
    method AcceptServerReply(server: AuthOutcome) returns (r: AuthResult)
      modifies this`user, storage`currentUser, storage`token
      ensures r == ServerResult(server)
      ensures server.AuthOk? ==> user == Some(server.user) && storage.currentUser == Some(server.user)
                                 && storage.token == Some(server.token)
      ensures !server.AuthOk? ==> user == old(user) && storage.currentUser == old(storage.currentUser)
                                  && storage.token == old(storage.token)
    {
      match server
      case AuthOk(u, t) =>
        user := Some(u);
        storage.currentUser := Some(u);
        storage.token := Some(t);
        r := AuthResult(true, None);
      case AuthRejected(m) =>
        r := AuthResult(false, Some(m));
      case NetworkError =>
        r := AuthResult(false, Some(ServerErrorMessage));
    }

    /** `register`: refuse an address already in the local list (checked
        case-insensitively, before any server call); otherwise the server
        decides. The local user list is never written. */
    method Register(name: string, email: string, password: string, role: UserRole, server: AuthOutcome)
      returns (r: AuthResult)
      modifies this`user, storage`currentUser, storage`token
      ensures EmailRegistered(LocalUsers(storage.users), email) ==>
        && r == AuthResult(false, Some(DuplicateEmailMessage))
        && user == old(user) && storage.currentUser == old(storage.currentUser)
        && storage.token == old(storage.token)
      ensures !EmailRegistered(LocalUsers(storage.users), email) ==>
        && r == ServerResult(server)
        && (server.AuthOk? ==> user == Some(server.user) && storage.currentUser == Some(server.user)
                               && storage.token == Some(server.token))
        && (!server.AuthOk? ==> user == old(user) && storage.currentUser == old(storage.currentUser)
                                && storage.token == old(storage.token))
    {
      var users := LocalUsers(storage.users);
      if Seqs.Some(users, (u: UserRecord) => SameEmail(u, email)) {
        return AuthResult(false, Some(DuplicateEmailMessage));
      }
      r := AcceptServerReply(server);
    }

    /** `logout`: clear the session and both session keys. The new state
        does not depend on the old one, so logging out twice is the same
        as once. */
    method Logout()
      modifies this`user, storage`currentUser, storage`token
      ensures user == None && storage.currentUser == None && storage.token == None
      ensures !IsAdmin()
    {
      user := None;
      storage.currentUser := None;
      storage.token := None;
    }
  }
}
