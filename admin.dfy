/** The administration page: blocking, unblocking and deleting user
    records in the stored user list, deleting scans, and the two search
    boxes over users and scans. Admin records can be neither blocked nor
    deleted. */
module Admin {
  import opened Types
  import opened Text
  import opened Seqs
  import opened Storage
  import ScanContext
  import AuthContext

  /** The number of scan rows the scan table shows at most. */
  const ScanRowLimit: nat := 20

  // ---------------------------------------------------------------------
  // Blocking and deleting users
  // ---------------------------------------------------------------------

  /** `users.find(u => u.id === userId)` */
  function FirstWithId(users: seq<UserRecord>, id: string): (r: Option<UserRecord>)
    ensures r.None? <==> forall i :: 0 <= i < |users| ==> users[i].id != id
    ensures r.Some? ==> exists k :: 0 <= k < |users| && users[k] == r.value && r.value.id == id
                                    && forall j :: 0 <= j < k ==> users[j].id != id
  {
    var k := FindIndex(users, (u: UserRecord) => u.id == id);
    if k < 0 then None else Some(users[k])
  }

  /** The guard of both user actions: the first record with that id is an
      admin. An id nobody has is not refused. */
  function TargetIsAdmin(users: seq<UserRecord>, id: string): (r: bool)
    ensures r <==> exists k :: 0 <= k < |users| && users[k].id == id && users[k].role == Admin
                              && forall j :: 0 <= j < k ==> users[j].id != id
  {
    var found := FirstWithId(users, id);
    found.Some? && found.value.role == Admin
  }

  /** An admin record is always protected when it is the first record with
      its id, which holds whenever ids are unique. */
  lemma AdminIsProtected(users: seq<UserRecord>, k: nat)
    requires k < |users| && users[k].role == Admin
    requires forall j :: 0 <= j < k ==> users[j].id != users[k].id
    ensures TargetIsAdmin(users, users[k].id)
  {
    var found := FirstWithId(users, users[k].id);
    var j :| 0 <= j < |users| && users[j] == found.value && found.value.id == users[k].id
             && forall m :: 0 <= m < j ==> users[m].id != users[k].id;
    assert j == k by {
      if j < k {
      } else if j > k {
      }
    }
  }

  /** `{ ...u, isBlocked: !u.isBlocked }`: an absent flag counts as
      not blocked, so the first toggle blocks. */
  function Flip(u: UserRecord): (r: UserRecord)
    ensures IsBlocked(r) <==> !IsBlocked(u)
    ensures r.isBlocked.Some?
    ensures r.(isBlocked := u.isBlocked) == u
  {
    u.(isBlocked := Some(!IsBlocked(u)))
  }

  /** `users.map(u => u.id === userId ? flip(u) : u)` */
  function ToggleBlocked(users: seq<UserRecord>, id: string): (r: seq<UserRecord>)
    ensures |r| == |users|
    ensures forall i :: 0 <= i < |users| && users[i].id != id ==> r[i] == users[i]
    ensures forall i :: 0 <= i < |users| && users[i].id == id ==> r[i] == Flip(users[i])
  {
    seq(|users|, i requires 0 <= i < |users| => if users[i].id == id then Flip(users[i]) else users[i])
  }

  /** Toggling twice restores every record's blocked state and leaves every
      other field as it was. */
  lemma ToggleTwiceRestores(users: seq<UserRecord>, id: string)
    ensures var twice := ToggleBlocked(ToggleBlocked(users, id), id);
            |twice| == |users|
            && forall i :: 0 <= i < |users| ==>
                 IsBlocked(twice[i]) == IsBlocked(users[i])
                 && twice[i].(isBlocked := users[i].isBlocked) == users[i]
  {
  }

  /** Toggling an id nobody has changes nothing. */
  lemma ToggleAbsentIsNoOp(users: seq<UserRecord>, id: string)
    requires forall i :: 0 <= i < |users| ==> users[i].id != id
    ensures ToggleBlocked(users, id) == users
  {
  }

  /** `users.filter(u => u.isBlocked).length`, the blocked count on the
      users card. */
  function BlockedCount(users: seq<UserRecord>): nat {
    if users == [] then 0 else (if IsBlocked(users[0]) then 1 else 0) + BlockedCount(users[1..])
  }

  /** The blocked count agrees with the `filter(...).length` it stands for. */
  lemma {:induction false} BlockedCountIsFilterLength(users: seq<UserRecord>)
    ensures BlockedCount(users) == |Filter(users, IsBlocked)|
  {
    if users != [] {
      BlockedCountIsFilterLength(users[1..]);
    }
  }

  /** When exactly one record carries the id, a toggle moves the blocked
      count by one in the direction of the flip. */
  lemma {:induction false} ToggleMovesBlockedCount(users: seq<UserRecord>, id: string, k: nat)
    requires k < |users| && users[k].id == id
    requires forall i :: 0 <= i < |users| && i != k ==> users[i].id != id
    ensures BlockedCount(ToggleBlocked(users, id))
            == if IsBlocked(users[k]) then BlockedCount(users) - 1 else BlockedCount(users) + 1
  {
    var t := ToggleBlocked(users, id);
    assert t[1..] == ToggleBlocked(users[1..], id);
    if k == 0 {
      ToggleAbsentIsNoOp(users[1..], id);
    } else {
      ToggleMovesBlockedCount(users[1..], id, k - 1);
    }
  }

  /** `users.filter(u => u.id !== userId)` */
  function RemoveUser(users: seq<UserRecord>, id: string): seq<UserRecord> {
    Filter(users, (u: UserRecord) => u.id != id)
  }

  /** Deleting removes every record with the id, keeps every other record,
      and keeps the survivors in their order. */
  lemma RemoveUserRemovesExactly(users: seq<UserRecord>, id: string)
    ensures var r := RemoveUser(users, id);
            (forall i :: 0 <= i < |r| ==> r[i].id != id && r[i] in users)
            && (forall i :: 0 <= i < |users| && users[i].id != id ==> users[i] in r)
            && IsSubsequence(r, users)
            && (forall u :: multiset(r)[u] == if u.id != id then multiset(users)[u] else 0)
  {
    FilterIsSubsequence(users, (u: UserRecord) => u.id != id);
    forall u ensures multiset(RemoveUser(users, id))[u] == if u.id != id then multiset(users)[u] else 0 {
      FilterCounts(users, (u: UserRecord) => u.id != id, u);
    }
  }

  /** Deleting an id nobody has keeps the list as it was. */
  lemma RemoveAbsentUserIsNoOp(users: seq<UserRecord>, id: string)
    requires forall i :: 0 <= i < |users| ==> users[i].id != id
    ensures RemoveUser(users, id) == users
  {
    FilterAll(users, (u: UserRecord) => u.id != id);
  }

  // ---------------------------------------------------------------------
  // Search
  // ---------------------------------------------------------------------

  /** The user search: name or e-mail contains the query, ignoring case. */
  predicate UserMatches(u: UserRecord, query: string) {
    Matches(u.name, query) || Matches(u.email, query)
  }

  function FilteredUsers(users: seq<UserRecord>, query: string): (r: seq<UserRecord>)
    ensures forall i :: 0 <= i < |r| ==> r[i] in users && UserMatches(r[i], query)
    ensures forall i :: 0 <= i < |users| && UserMatches(users[i], query) ==> users[i] in r
    ensures IsSubsequence(r, users)
  {
    var matches := (u: UserRecord) => UserMatches(u, query);
    FilterIsSubsequence(users, matches);
    Filter(users, matches)
  }

  /** The scan search: the patient's name or the disease string contains
      the query, ignoring case. */
  predicate ScanMatches(s: Scan, query: string) {
    Matches(s.userName, query) || Matches(DiseaseName(s.diagnosis.disease), query)
  }

  function FilteredScans(scans: seq<Scan>, query: string): (r: seq<Scan>)
    ensures forall i :: 0 <= i < |r| ==> r[i] in scans && ScanMatches(r[i], query)
    ensures forall i :: 0 <= i < |scans| && ScanMatches(scans[i], query) ==> scans[i] in r
    ensures IsSubsequence(r, scans)
  {
    var matches := (s: Scan) => ScanMatches(s, query);
    FilterIsSubsequence(scans, matches);
    Filter(scans, matches)
  }

  /** The rows of the scan table: the first twenty matches. */
  function ShownScans(scans: seq<Scan>, query: string): (r: seq<Scan>)
    ensures |r| == if |FilteredScans(scans, query)| < ScanRowLimit then |FilteredScans(scans, query)| else ScanRowLimit
    ensures r == FilteredScans(scans, query)[..|r|]
    ensures |FilteredScans(scans, query)| <= ScanRowLimit ==> r == FilteredScans(scans, query)
  {
    Take(FilteredScans(scans, query), ScanRowLimit)
  }

  /** An empty search box hides nothing. */
  lemma EmptySearchShowsAll(users: seq<UserRecord>, scans: seq<Scan>)
    ensures FilteredUsers(users, "") == users
    ensures FilteredScans(scans, "") == scans
  {
    forall i | 0 <= i < |users| ensures UserMatches(users[i], "") {
      MatchesEmpty(users[i].name);
    }
    FilterAll(users, (u: UserRecord) => UserMatches(u, ""));
    forall i | 0 <= i < |scans| ensures ScanMatches(scans[i], "") {
      MatchesEmpty(scans[i].userName);
    }
    FilterAll(scans, (s: Scan) => ScanMatches(s, ""));
  }

  /** A record is found by its own name and its own e-mail, in any case. */
  lemma UserFoundByOwnName(u: UserRecord, query: string)
    requires Lower(query) == Lower(u.name) || Lower(query) == Lower(u.email)
    ensures UserMatches(u, query)
  {
    IncludesSelf(Lower(u.name));
    IncludesSelf(Lower(u.email));
  }

  // ---------------------------------------------------------------------
  // Blocking and login
  // ---------------------------------------------------------------------

  /** After a toggle blocks the only record with an id, that record's own
      credentials no longer log in locally, wherever it sits in the list
      (any earlier record it could have matched instead does not match). */
  lemma BlockedUserCannotLogIn(users: seq<UserRecord>, k: nat, password: string)
    requires k < |users| && users[k].password == Some(password) && !IsBlocked(users[k])
    requires forall i :: 0 <= i < |users| && i != k ==> users[i].id != users[k].id
    requires forall i :: 0 <= i < k ==> !AuthContext.CredentialsMatch(users[i], users[k].email, password)
    ensures AuthContext.LocalLoginOutcome(ToggleBlocked(users, users[k].id), users[k].email, password)
            == AuthContext.LocalBlocked
  {
    var t := ToggleBlocked(users, users[k].id);
    assert AuthContext.CredentialsMatch(t[k], users[k].email, password);
    var found := AuthContext.FindByCredentials(t, users[k].email, password);
    assert found == Some(t[k]) by {
      var j :| 0 <= j < |t| && t[j] == found.value && AuthContext.CredentialsMatch(t[j], users[k].email, password)
               && forall m :: 0 <= m < j ==> !AuthContext.CredentialsMatch(t[m], users[k].email, password);
    }
  }

  class AdminPage {
    /** The page's copy of the user list. */
    var users: seq<UserRecord>
    const storage: LocalStorage
    const scanStore: ScanContext.ScanProvider

    /** Mounting: read the stored list, or start empty when the key is not
        set. */
    constructor (storage: LocalStorage, scanStore: ScanContext.ScanProvider)
      ensures this.storage == storage && this.scanStore == scanStore
      ensures users == storage.users.GetOr([])
    {
      this.storage := storage;
      this.scanStore := scanStore;
      users := storage.users.GetOr([]);
    }

    /** `saveUsers`: write the list to storage and to the page. */
    method SaveUsers(updated: seq<UserRecord>)
      modifies this`users, storage`users
      ensures users == updated && storage.users == Some(updated)
    {
      storage.users := Some(updated);
      users := updated;
    }

    /** `toggleBlockUser`: refused for an admin; otherwise flip every
        record with the id and save. */
    method ToggleBlockUser(userId: string)
      modifies this`users, storage`users
      ensures TargetIsAdmin(old(users), userId) ==>
                users == old(users) && storage.users == old(storage.users)
      ensures !TargetIsAdmin(old(users), userId) ==>
                users == ToggleBlocked(old(users), userId) && storage.users == Some(users)
    {
      if TargetIsAdmin(users, userId) {
        return;
      }
      SaveUsers(ToggleBlocked(users, userId));
    }

    /** `deleteUser`: refused for an admin; otherwise drop every record
        with the id and save. */
    method DeleteUser(userId: string)
      modifies this`users, storage`users
      ensures TargetIsAdmin(old(users), userId) ==>
                users == old(users) && storage.users == old(storage.users)
      ensures !TargetIsAdmin(old(users), userId) ==>
                users == RemoveUser(old(users), userId) && storage.users == Some(users)
    {
      if TargetIsAdmin(users, userId) {
        return;
      }
      SaveUsers(RemoveUser(users, userId));
    }

    /** `handleDeleteScan`: delegates to the scan store. */
    method HandleDeleteScan(scanId: string)
      modifies scanStore`scans, scanStore.storage`scans
      ensures scanStore.scans == ScanContext.WithoutScan(old(scanStore.scans), scanId)
      ensures scanStore.Persisted()
    {
      scanStore.DeleteScan(scanId);
    }
  }
}
