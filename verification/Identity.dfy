/** provisionUser and syncGroup of internal/auth/auth.go: finding or creating the user of a login. */
module Identity {
  import opened Basics
  import opened Tables
  import opened Store

  /** What the identity provider says of a user. */
  datatype Login = Login(subject: string, email: string, name: string, groups: seq<string>)

  /** Which of the store calls on behalf of one group claim fail. */
  datatype GroupFaults = GroupFaults(find: bool, create: bool, add: bool)

  /** Which store calls of a login fail. */
  datatype Faults = Faults(bySubject: bool, byEmail: bool, create: bool, groups: seq<GroupFaults>)

  /** The ids drawn during a login. */
  datatype Draw = Draw(user: string, groups: seq<string>)

  predicate Drawn(login: Login, draw: Draw, faults: Faults) {
    |draw.groups| == |login.groups| == |faults.groups|
  }

  // ---------------------------------------------------------------- what a login does to the tables

  ghost predicate Carries(db: Tables, g: string, claim: string) {
    g in db.groups && db.groups[g].oidcClaim == Some(claim)
  }

  ghost predicate Carried(db: Tables, claim: string) {
    exists g :: Carries(db, g, claim)
  }

  ghost predicate Named(db: Tables, name: string) {
    exists g | g in db.groups :: db.groups[g].name == name
  }

  function WithMember(db: Tables, group: string, user: string, fails: bool): Tables {
    if fails then db else MemberAdded(db, group, user).0
  }

  ghost predicate Synced(db: Tables, d: Tables, user: string, claim: string, newId: string, f: GroupFaults) {
    var (grown, created) := GroupCreated(db, newId, Group(claim, NullString(claim)));
    if f.find then d == db
    else if Carried(db, claim) then exists g :: Carries(db, g, claim) && d == WithMember(db, g, user, f.add)
    else if f.create || !created then d == db
    else d == WithMember(grown, newId, user, f.add)
  }

  ghost predicate SyncedAll(
    db: Tables, d: Tables, user: string, claims: seq<string>, newIds: seq<string>, fs: seq<GroupFaults>)
    requires |newIds| == |claims| == |fs|
    decreases |claims|
  {
    if claims == [] then d == db
    else
      var n := |claims| - 1;
      exists mid :: SyncedAll(db, mid, user, claims[..n], newIds[..n], fs[..n])
        && Synced(mid, d, user, claims[n], newIds[n], fs[n])
  }

  function NewUser(login: Login): User {
    User(login.email, if login.name == "" then login.email else login.name, NullString(login.subject))
  }

  ghost predicate HasSubject(db: Tables, u: string, subject: string) {
    u in db.users && db.users[u].oidcSubject == Some(subject)
  }

  ghost predicate HasEmail(db: Tables, u: string, email: string) {
    u in db.users && db.users[u].email == email
  }

  ghost predicate KnownSubject(db: Tables, subject: string) {
    exists u :: HasSubject(db, u, subject)
  }

  ghost predicate KnownEmail(db: Tables, email: string) {
    exists u :: HasEmail(db, u, email)
  }

  /** A login and the user it returns, None for an error. */
  ghost predicate Provisioned(db: Tables, d: Tables, login: Login, draw: Draw, faults: Faults, user: Option<string>)
    requires Drawn(login, draw, faults)
  {
    if faults.bySubject then d == db && user == None
    else if KnownSubject(db, login.subject) then d == db && user.Some? && HasSubject(db, user.value, login.subject)
    else if faults.byEmail then d == db && user == None
    else if KnownEmail(db, login.email) then d == db && user.Some? && HasEmail(db, user.value, login.email)
    else
      var (grown, created) := UserCreated(db, draw.user, NewUser(login));
      if faults.create || !created then d == db && user == None
      else user == Some(draw.user) && SyncedAll(grown, d, draw.user, login.groups, draw.groups, faults.groups)
  }

  // ---------------------------------------------------------------- the code

  class Manager {
    const store: SQLStore

    constructor (store: SQLStore)
      ensures this.store == store
    {
      this.store := store;
    }

    method ProvisionUser(login: Login, draw: Draw, faults: Faults) returns (user: Option<string>)
      requires Drawn(login, draw, faults) && draw.user != "" && "" !in draw.groups
      modifies store
      ensures Provisioned(old(store.Contents()), store.Contents(), login, draw, faults, user)
    {
      if faults.bySubject {
        return None;
      }
      user := store.GetUserByOIDCSubject(login.subject);
      if user.Some? {
        assert HasSubject(store.Contents(), user.value, login.subject);
        return;
      }
      if faults.byEmail {
        return None;
      }
      user := store.GetUserByEmail(login.email);
      if user.Some? {
        assert HasEmail(store.Contents(), user.value, login.email);
        return;
      }
      if faults.create {
        return None;
      }
      var displayName := login.name;
      if displayName == "" {
        displayName := login.email;
      }
      var id, ok := store.CreateUser("", draw.user, login.email, displayName, login.subject);
      if !ok {
        return None;
      }
      SyncGroups(login.groups, id, draw.groups, faults.groups);
      return Some(id);
    }

    /** The loop over the group claims; what goes wrong with one of them does not stop it. */
    method SyncGroups(claims: seq<string>, user: string, newIds: seq<string>, fs: seq<GroupFaults>)
      requires |newIds| == |claims| == |fs| && "" !in newIds
      modifies store
      ensures SyncedAll(old(store.Contents()), store.Contents(), user, claims, newIds, fs)
    {
      for i := 0 to |claims|
        invariant SyncedAll(old(store.Contents()), store.Contents(), user, claims[..i], newIds[..i], fs[..i])
      {
        ghost var before := store.Contents();
        SyncGroup(claims[i], user, newIds[i], fs[i]);
        assert claims[..i + 1][..i] == claims[..i] && newIds[..i + 1][..i] == newIds[..i]
          && fs[..i + 1][..i] == fs[..i];
      }
      assert claims[..|claims|] == claims && newIds[..|claims|] == newIds && fs[..|claims|] == fs;
    }

    method SyncGroup(claim: string, user: string, newId: string, f: GroupFaults)
      requires newId != ""
      modifies store
      ensures Synced(old(store.Contents()), store.Contents(), user, claim, newId, f)
    {
      if f.find {
        return;
      }
      ghost var before := store.Contents();
      var group := store.GetGroupByOIDCClaim(claim);
      if group == None {
        assert !Carried(before, claim);
        if f.create {
          return;
        }
        var id, ok := store.CreateGroup("", newId, claim, claim);
        if !ok {
          return;
        }
        group := Some(id);
      } else {
        assert Carries(before, group.value, claim);
      }
      if !f.add {
        var _ := store.AddGroupMember(group.value, user);
      }
    }
  }

  // ---------------------------------------------------------------- a linked subject stays linked

  /** d holds every user row of db as it was. */
  ghost predicate UsersKept(db: Tables, d: Tables) {
    forall u | u in db.users :: u in d.users && d.users[u] == db.users[u]
  }

  lemma {:induction false} SyncKeeps(
    db: Tables, d: Tables, user: string, claims: seq<string>, newIds: seq<string>, fs: seq<GroupFaults>)
    requires |newIds| == |claims| == |fs| && SyncedAll(db, d, user, claims, newIds, fs)
    ensures d.users == db.users
    ensures Consistent(db) ==> Consistent(d)
    decreases |claims|
  {
    if claims != [] {
      var n := |claims| - 1;
      var mid :| SyncedAll(db, mid, user, claims[..n], newIds[..n], fs[..n])
        && Synced(mid, d, user, claims[n], newIds[n], fs[n]);
      SyncKeeps(db, mid, user, claims[..n], newIds[..n], fs[..n]);
      OneSyncKeeps(mid, d, user, claims[n], newIds[n], fs[n]);
    }
  }

  lemma WithMemberKeeps(db: Tables, g: string, user: string, fails: bool)
    requires Consistent(db)
    ensures Consistent(WithMember(db, g, user, fails))
  {
  }

  lemma OneSyncStaysConsistent(db: Tables, d: Tables, user: string, claim: string, newId: string, f: GroupFaults)
    requires Synced(db, d, user, claim, newId, f) && Consistent(db)
    ensures Consistent(d)
  {
    var grown := GroupCreated(db, newId, Group(claim, NullString(claim))).0;
    if d != db {
      if Carried(db, claim) {
        var g :| d == WithMember(db, g, user, f.add);
        WithMemberKeeps(db, g, user, f.add);
      } else {
        GroupCreatedKeeps(db, newId, Group(claim, NullString(claim)));
        WithMemberKeeps(grown, newId, user, f.add);
      }
    }
  }

  lemma OneSyncKeeps(db: Tables, d: Tables, user: string, claim: string, newId: string, f: GroupFaults)
    requires Synced(db, d, user, claim, newId, f)
    ensures d.users == db.users
    ensures Consistent(db) ==> Consistent(d)
  {
    if Consistent(db) {
      OneSyncStaysConsistent(db, d, user, claim, newId, f);
    }
  }

  lemma LoginKeeps(db: Tables, d: Tables, login: Login, draw: Draw, faults: Faults, user: Option<string>)
    requires Drawn(login, draw, faults) && Provisioned(db, d, login, draw, faults, user)
    ensures UsersKept(db, d)
    ensures Consistent(db) ==> Consistent(d)
    ensures user.Some? ==> user.value in d.users
  {
    var grown := UserCreated(db, draw.user, NewUser(login)).0;
    if Consistent(db) {
      UserCreatedKeeps(db, draw.user, NewUser(login));
    }
    if d != db || user == Some(draw.user) {
      if SyncedAll(grown, d, draw.user, login.groups, draw.groups, faults.groups) {
        SyncKeeps(grown, d, draw.user, login.groups, draw.groups, faults.groups);
      }
    }
  }

  lemma OperationKeepsUsers(db: Tables, op: Op)
    ensures UsersKept(db, Exec(db, op).0)
  {
    if op.InsertCostRecords? {
      BatchIsAllOrNothing(db, op.batch);
    }
  }

  /** One change of the tables: a login, or any operation of the store. */
  datatype Change =
    | SignIn(login: Login, draw: Draw, faults: Faults, user: Option<string>)
    | Operation(op: Op)

  ghost predicate Changed(db: Tables, d: Tables, change: Change) {
    match change
    case SignIn(login, draw, faults, user) =>
      Drawn(login, draw, faults) && Provisioned(db, d, login, draw, faults, user)
    case Operation(op) => d == Exec(db, op).0
  }

  /** The states of a run, one more than its changes. */
  ghost predicate History(dbs: seq<Tables>, changes: seq<Change>) {
    |dbs| == |changes| + 1 && Consistent(dbs[0]) && forall i | 0 <= i < |changes| ::
      Changed(dbs[i], dbs[i + 1], changes[i])
  }

  ghost predicate Kept(db: Tables, d: Tables) {
    UsersKept(db, d) && (Consistent(db) ==> Consistent(d))
  }

  lemma ChangeKeeps(db: Tables, d: Tables, change: Change)
    requires Changed(db, d, change)
    ensures Kept(db, d)
  {
    match change
    case SignIn(login, draw, faults, user) => LoginKeeps(db, d, login, draw, faults, user);
    case Operation(op) =>
      OperationKeepsUsers(db, op);
      if Consistent(db) {
        ExecKeepsConsistent(db, op);
      }
  }

  lemma {:induction false} StepsKeep(dbs: seq<Tables>, i: nat, j: nat)
    requires i <= j < |dbs| && forall k | 0 <= k < |dbs| - 1 :: Kept(dbs[k], dbs[k + 1])
    ensures Kept(dbs[i], dbs[j])
    decreases j
  {
    if i < j {
      StepsKeep(dbs, i, j - 1);
      assert Kept(dbs[j - 1], dbs[j - 1 + 1]);
    }
  }

  lemma HistoryKeeps(dbs: seq<Tables>, changes: seq<Change>, i: nat, j: nat)
    requires History(dbs, changes) && i <= j < |dbs|
    ensures UsersKept(dbs[i], dbs[j])
    ensures Consistent(dbs[j])
  {
    forall k | 0 <= k < |dbs| - 1 ensures Kept(dbs[k], dbs[k + 1]) {
      ChangeKeeps(dbs[k], dbs[k + 1], changes[k]);
    }
    StepsKeep(dbs, i, j);
    StepsKeep(dbs, 0, j);
  }

  /**
   * Once the row of a user carries a subject, every later login with that subject returns this user and
   * changes nothing, whatever logins and store operations came between; only a failing lookup gives an error.
   */
  lemma SubjectStaysLinked(dbs: seq<Tables>, changes: seq<Change>, i: nat, j: nat, u: string)
    requires History(dbs, changes) && i <= j < |changes| && changes[j].SignIn?
    requires HasSubject(dbs[i], u, changes[j].login.subject)
    ensures changes[j].user == if changes[j].faults.bySubject then None else Some(u)
    ensures dbs[j + 1] == dbs[j]
  {
    HistoryKeeps(dbs, changes, i, j);
    assert Changed(dbs[j], dbs[j + 1], changes[j]);
    assert HasSubject(dbs[j], u, changes[j].login.subject);
  }

  /**
   * The guarantee needs the row to carry the subject: for a login under an address that is new, it is the
   * same user again exactly when it does. A user who was found by address alone is not linked.
   */
  lemma SameUserIffLinked(
    db: Tables, d: Tables, login: Login, draw: Draw, faults: Faults, user: Option<string>, u: string)
    requires Consistent(db) && u in db.users
    requires Drawn(login, draw, faults) && Provisioned(db, d, login, draw, faults, user)
    requires !faults.bySubject && !KnownEmail(db, login.email) && draw.user !in db.users
    ensures user == Some(u) <==> db.users[u].oidcSubject == Some(login.subject)
  {
    assert db.users[u].oidcSubject == Some(login.subject) <==> HasSubject(db, u, login.subject);
  }

  lemma CreatedRow(db: Tables, d: Tables, login: Login, draw: Draw, faults: Faults, u: string)
    requires Drawn(login, draw, faults) && Provisioned(db, d, login, draw, faults, Some(u)) && u !in db.users
    ensures u in d.users && d.users[u] == NewUser(login)
  {
    var grown := UserCreated(db, u, NewUser(login)).0;
    SyncKeeps(grown, d, u, login.groups, draw.groups, faults.groups);
  }

  /** A user created by a login is the user of every later login with the same subject or, failing that, address. */
  lemma CreatedUserIsFoundAgain(dbs: seq<Tables>, changes: seq<Change>, i: nat, j: nat)
    requires History(dbs, changes) && i < j < |changes| && changes[i].SignIn? && changes[j].SignIn?
    requires var first, again := changes[i], changes[j];
             && first.user.Some? && first.user.value !in dbs[i].users
             && again.user.Some?
             && (|| (first.login.subject != "" && again.login.subject == first.login.subject)
                 || (!KnownSubject(dbs[j], again.login.subject) && again.login.email == first.login.email))
    ensures changes[j].user == changes[i].user
    ensures dbs[j + 1] == dbs[j]
  {
    var first, again := changes[i], changes[j];
    var u := first.user.value;
    assert Changed(dbs[i], dbs[i + 1], first) && Changed(dbs[j], dbs[j + 1], again);
    CreatedRow(dbs[i], dbs[i + 1], first.login, first.draw, first.faults, u);
    HistoryKeeps(dbs, changes, i + 1, j);
    assert dbs[j].users[u] == NewUser(first.login);
    if first.login.subject != "" && again.login.subject == first.login.subject {
      assert HasSubject(dbs[j], u, again.login.subject);
    } else {
      assert HasEmail(dbs[j], u, again.login.email);
    }
  }

  // ---------------------------------------------------------------- the groups of a new user

  const NO_FAULT := GroupFaults(false, false, false)

  ghost predicate Flawless(faults: Faults) {
    !faults.bySubject && !faults.byEmail && !faults.create && forall f | f in faults.groups :: f == NO_FAULT
  }

  /** Ids as newID draws them: unused, and no two alike. */
  ghost predicate FreshGroups(db: Tables, newIds: seq<string>) {
    (forall id | id in newIds :: id !in db.groups) && forall i, j | 0 <= i < j < |newIds| :: newIds[i] != newIds[j]
  }

  /** An empty claim is stored as NULL. */
  ghost predicate NoEmptyClaim(db: Tables) {
    forall g | g in db.groups :: db.groups[g].oidcClaim != Some("")
  }

  /** Every group came from a non-empty claim. */
  ghost predicate AllFromClaims(db: Tables) {
    forall g | g in db.groups :: db.groups[g].name != "" && db.groups[g].oidcClaim == Some(db.groups[g].name)
  }

  /** There is a group with the claim, or the name for one is free. */
  ghost predicate Joinable(db: Tables, claim: string) {
    claim != "" && (Carried(db, claim) || !Named(db, claim))
  }

  ghost predicate InGroupOf(db: Tables, user: string, g: string, claim: string) {
    (g, user) in db.members && Carries(db, g, claim)
  }

  /** The user is in a group with the claim. */
  ghost predicate Belongs(db: Tables, user: string, claim: string) {
    exists g :: InGroupOf(db, user, g, claim)
  }

  ghost predicate OneGroupEach(db: Tables, user: string) {
    forall g, h, c | InGroupOf(db, user, g, c) && InGroupOf(db, user, h, c) :: g == h
  }

  ghost predicate GroupsKept(db: Tables, d: Tables) {
    && (forall g | g in db.groups :: g in d.groups && d.groups[g] == db.groups[g])
    && db.members <= d.members
  }

  /** What one claim did for the user, and that it did nothing else. */
  ghost predicate Joined(db: Tables, d: Tables, user: string, claim: string) {
    && GroupsKept(db, d)
    && (Belongs(d, user, claim) <==> Joinable(db, claim))
    && (forall c | c != claim :: Belongs(d, user, c) <==> Belongs(db, user, c))
    && (forall c :: Joinable(d, c) <==> Joinable(db, c))
    && (forall m | m in d.members :: m in db.members || (m.1 == user && (Carries(d, m.0, claim) || claim == "")))
  }

  lemma Meets(db: Tables, d: Tables, user: string, claim: string, g: string)
    requires NoEmptyClaim(db) && user in db.users && Carries(db, g, claim)
    requires d == WithMember(db, g, user, false)
    ensures Joined(db, d, user, claim)
  {
    assert d.groups == db.groups && d.members == db.members + {(g, user)};
    assert InGroupOf(d, user, g, claim);
    forall c ensures c != claim ==> (Belongs(d, user, c) <==> Belongs(db, user, c)) {
      forall h ensures InGroupOf(d, user, h, c) <==> InGroupOf(db, user, h, c) || (h == g && c == claim) {
        assert Carries(d, h, c) <==> Carries(db, h, c);
      }
    }
    SameGroupsSameJoinable(db, d);
  }

  lemma SameGroupsSameJoinable(db: Tables, d: Tables)
    requires d.groups == db.groups
    ensures forall c :: Joinable(d, c) <==> Joinable(db, c)
  {
    forall c ensures Joinable(d, c) <==> Joinable(db, c) {
      assert forall g :: Carries(d, g, c) <==> Carries(db, g, c);
    }
  }

  lemma Founds(db: Tables, grown: Tables, d: Tables, user: string, claim: string, newId: string)
    requires Consistent(db) && NoEmptyClaim(db) && user in db.users && newId !in db.groups
    requires !Carried(db, claim) && !Named(db, claim)
    requires grown == db.(groups := db.groups[newId := Group(claim, NullString(claim))])
    requires d == WithMember(grown, newId, user, false)
    ensures Joined(db, d, user, claim)
  {
    assert d.groups == grown.groups && d.members == db.members + {(newId, user)};
    forall g, c ensures Carries(d, g, c) <==> Carries(db, g, c) || (g == newId && c == claim && claim != "") {}
    forall g ensures (g, user) in d.members <==> (g, user) in db.members || g == newId {}
    assert newId in d.groups && d.groups[newId].name == claim;
    if claim != "" {
      assert InGroupOf(d, user, newId, claim);
    } else {
      assert !Belongs(d, user, claim);
    }
    forall c | c != claim ensures Belongs(d, user, c) <==> Belongs(db, user, c) {
      forall h ensures InGroupOf(d, user, h, c) <==> InGroupOf(db, user, h, c) {
      }
    }
    FoundingKeepsJoinable(db, d, claim, newId);
  }

  lemma FoundingKeepsClaims(db: Tables, d: Tables, claim: string, newId: string)
    requires NoEmptyClaim(db) && newId !in db.groups && !Carried(db, claim)
    requires d.groups == db.groups[newId := Group(claim, NullString(claim))]
    ensures NoEmptyClaim(d)
  {
  }

  lemma FoundingKeepsJoinable(db: Tables, d: Tables, claim: string, newId: string)
    requires newId !in db.groups && !Named(db, claim)
    requires d.groups == db.groups[newId := Group(claim, NullString(claim))]
    ensures forall c :: Joinable(d, c) <==> Joinable(db, c)
  {
    assert newId in d.groups && d.groups[newId].name == claim;
    forall c ensures Joinable(d, c) <==> Joinable(db, c) {
      forall g ensures Carries(d, g, c) <==> Carries(db, g, c) || (g == newId && c == claim && claim != "") {}
      if c == claim && claim != "" {
        assert Carries(d, newId, claim);
      } else if c != claim {
        assert forall g | g in db.groups :: g in d.groups && d.groups[g].name == db.groups[g].name;
        assert Named(d, c) <==> Named(db, c);
      }
    }
  }

  lemma OneClaim(db: Tables, d: Tables, user: string, claim: string, newId: string)
    requires Consistent(db) && NoEmptyClaim(db) && user in db.users && newId !in db.groups
    requires Synced(db, d, user, claim, newId, NO_FAULT)
    ensures Joined(db, d, user, claim) && NoEmptyClaim(d)
    ensures d.groups.Keys <= db.groups.Keys + {newId}
  {
    if Carried(db, claim) {
      var g :| Carries(db, g, claim) && d == WithMember(db, g, user, false);
      Meets(db, d, user, claim, g);
    } else if Named(db, claim) {
      assert d == db;
      assert forall g :: !InGroupOf(db, user, g, claim);
    } else {
      Founds(db, GroupCreated(db, newId, Group(claim, NullString(claim))).0, d, user, claim, newId);
      FoundingKeepsClaims(db, d, claim, newId);
    }
  }

  /** What a list of claims did for a user who was in no group before. */
  ghost predicate JoinedAll(db: Tables, d: Tables, user: string, claims: seq<string>) {
    && GroupsKept(db, d)
    && (forall c :: Belongs(d, user, c) <==> c in claims && Joinable(db, c))
    && (forall c :: Joinable(d, c) <==> Joinable(db, c))
    && (forall m | m in d.members :: m in db.members || (m.1 == user && (ClaimedFrom(d, m.0, claims) || "" in claims)))
  }

  ghost predicate ClaimedFrom(db: Tables, g: string, claims: seq<string>) {
    g in db.groups && db.groups[g].oidcClaim.Some? && db.groups[g].oidcClaim.value in claims
  }

  lemma JoinedNext(db: Tables, mid: Tables, d: Tables, user: string, front: seq<string>, claim: string)
    requires JoinedAll(db, mid, user, front) && Joined(mid, d, user, claim)
    ensures JoinedAll(db, d, user, front + [claim])
  {
    var claims := front + [claim];
    assert forall c :: c in claims <==> c in front || c == claim;
    forall c ensures Belongs(d, user, c) <==> c in claims && Joinable(db, c) {
      if c != claim {
        assert Belongs(d, user, c) <==> Belongs(mid, user, c);
      }
    }
    forall m | m in d.members && m !in db.members
      ensures m.1 == user && (ClaimedFrom(d, m.0, claims) || "" in claims)
    {
      if m in mid.members {
        assert m.1 == user && (ClaimedFrom(mid, m.0, front) || "" in front);
      } else {
        assert Carries(d, m.0, claim) || claim == "";
      }
    }
  }

  lemma NextClaim(db: Tables, mid: Tables, d: Tables, user: string, front: seq<string>, claim: string, newId: string)
    requires Consistent(mid) && NoEmptyClaim(mid) && user in mid.users && newId !in mid.groups
    requires JoinedAll(db, mid, user, front) && Synced(mid, d, user, claim, newId, NO_FAULT)
    ensures JoinedAll(db, d, user, front + [claim]) && NoEmptyClaim(d)
    ensures d.groups.Keys <= mid.groups.Keys + {newId}
  {
    OneClaim(mid, d, user, claim, newId);
    JoinedNext(db, mid, d, user, front, claim);
  }

  lemma NoClaims(db: Tables, user: string)
    requires forall m | m in db.members :: m.1 != user
    ensures JoinedAll(db, db, user, [])
  {
    assert forall g, c :: !InGroupOf(db, user, g, c);
  }

  lemma {:induction false} AllClaims(
    db: Tables, d: Tables, user: string, claims: seq<string>, newIds: seq<string>, fs: seq<GroupFaults>)
    requires Consistent(db) && NoEmptyClaim(db) && user in db.users && forall m | m in db.members :: m.1 != user
    requires |newIds| == |claims| == |fs| && FreshGroups(db, newIds) && forall f | f in fs :: f == NO_FAULT
    requires SyncedAll(db, d, user, claims, newIds, fs)
    ensures JoinedAll(db, d, user, claims) && NoEmptyClaim(d)
    ensures forall g | g in d.groups :: g in db.groups || g in newIds
    decreases |claims|
  {
    if claims == [] {
      NoClaims(db, user);
    } else {
      var n := |claims| - 1;
      var mid :| SyncedAll(db, mid, user, claims[..n], newIds[..n], fs[..n])
        && Synced(mid, d, user, claims[n], newIds[n], fs[n]);
      SyncKeeps(db, mid, user, claims[..n], newIds[..n], fs[..n]);
      assert forall f | f in fs[..n] :: f in fs;
      AllClaims(db, mid, user, claims[..n], newIds[..n], fs[..n]);
      assert fs[n] in fs && newIds[n] in newIds && claims == claims[..n] + [claims[n]];
      NextClaim(db, mid, d, user, claims[..n], claims[n], newIds[n]);
    }
  }

  /** A user is created by the login, whose subject and address are new. */
  ghost predicate FirstLogin(db: Tables, login: Login, draw: Draw, faults: Faults) {
    && Drawn(login, draw, faults) && Flawless(faults) && draw.user !in db.users && FreshGroups(db, draw.groups)
    && !KnownSubject(db, login.subject) && !KnownEmail(db, login.email)
  }

  /**
   * A first login creates its user, who then is in a group for a claim exactly when the claim is listed and
   * joinable, and, the empty claim apart, in no further group. Groups may share claims.
   */
  lemma NewUserJoinsItsClaims(db: Tables, d: Tables, login: Login, draw: Draw, faults: Faults, user: Option<string>)
    requires Consistent(db) && NoEmptyClaim(db) && FirstLogin(db, login, draw, faults)
    requires Provisioned(db, d, login, draw, faults, user)
    ensures user == Some(draw.user) && draw.user in d.users && d.users[draw.user] == NewUser(login)
    ensures forall c :: Belongs(d, draw.user, c) <==> c in login.groups && Joinable(db, c)
    ensures "" !in login.groups ==> forall m | m in d.members && m.1 == draw.user :: ClaimedFrom(d, m.0, login.groups)
    ensures NoEmptyClaim(d)
  {
    var grown := UserCreated(db, draw.user, NewUser(login)).0;
    UserCreatedKeeps(db, draw.user, NewUser(login));
    CreationGoesThrough(db, login, draw.user);
    SyncKeeps(grown, d, draw.user, login.groups, draw.groups, faults.groups);
    SameGroupsSameJoinable(db, grown);
    AllClaims(grown, d, draw.user, login.groups, draw.groups, faults.groups);
  }

  lemma CreationGoesThrough(db: Tables, login: Login, id: string)
    requires !KnownSubject(db, login.subject) && !KnownEmail(db, login.email) && id !in db.users
    ensures UserCreated(db, id, NewUser(login)) == (db.(users := db.users[id := NewUser(login)]), true)
  {
    assert forall u | u in db.users :: !HasEmail(db, u, login.email) && !HasSubject(db, u, login.subject);
  }

  // ---------------------------------------------------------------- one group for each claim

  ghost predicate CarriedOnce(db: Tables, claim: string) {
    forall g, h | Carries(db, g, claim) && Carries(db, h, claim) :: g == h
  }

  predicate ListedTwice(claims: seq<string>, claim: string) {
    exists i, j :: 0 <= i < j < |claims| && claims[i] == claims[j] == claim
  }

  /** No non-empty claim that two groups carry is listed twice. */
  ghost predicate Unambiguous(db: Tables, claims: seq<string>) {
    forall c | c != "" && ListedTwice(claims, c) :: CarriedOnce(db, c)
  }

  /** Only one more membership, and at most one more group, the only one with its claim. */
  ghost predicate AddsOne(db: Tables, d: Tables, user: string, claim: string) {
    && (forall c | CarriedOnce(db, c) :: CarriedOnce(d, c))
    && (forall g, c | InGroupOf(d, user, g, c) && !InGroupOf(db, user, g, c) :: c == claim)
    && (forall g, h, c | InGroupOf(d, user, g, c) && InGroupOf(d, user, h, c)
                         && !InGroupOf(db, user, g, c) && !InGroupOf(db, user, h, c) :: g == h)
  }

  lemma OneClaimAddsOne(db: Tables, d: Tables, user: string, claim: string, newId: string)
    requires Consistent(db) && NoEmptyClaim(db) && user in db.users && newId !in db.groups
    requires Synced(db, d, user, claim, newId, NO_FAULT)
    ensures AddsOne(db, d, user, claim)
  {
    if Carried(db, claim) {
      var g :| Carries(db, g, claim) && d == WithMember(db, g, user, false);
      MeetingAddsOne(db, d, user, claim, g);
    } else if Named(db, claim) {
      assert d == db;
    } else {
      FoundingAddsOne(db, GroupCreated(db, newId, Group(claim, NullString(claim))).0, d, user, claim, newId);
    }
  }

  lemma MeetingAddsOne(db: Tables, d: Tables, user: string, claim: string, g: string)
    requires user in db.users && Carries(db, g, claim) && d == WithMember(db, g, user, false)
    ensures AddsOne(db, d, user, claim)
  {
    assert d.groups == db.groups && d.members == db.members + {(g, user)};
    forall h, c ensures InGroupOf(d, user, h, c) <==> InGroupOf(db, user, h, c) || (h == g && c == claim) {
      assert Carries(d, h, c) <==> Carries(db, h, c);
    }
    forall c | CarriedOnce(db, c) ensures CarriedOnce(d, c) {
      assert forall h :: Carries(d, h, c) <==> Carries(db, h, c);
    }
  }

  lemma FoundingAddsOne(db: Tables, grown: Tables, d: Tables, user: string, claim: string, newId: string)
    requires References(db) && user in db.users && newId !in db.groups && !Carried(db, claim)
    requires grown == db.(groups := db.groups[newId := Group(claim, NullString(claim))])
    requires d == WithMember(grown, newId, user, false)
    ensures AddsOne(db, d, user, claim)
  {
    assert d.groups == grown.groups && d.members == db.members + {(newId, user)};
    forall g, c ensures Carries(d, g, c) <==> Carries(db, g, c) || (g == newId && c == claim && claim != "") {}
    forall h, c ensures InGroupOf(d, user, h, c) ==> InGroupOf(db, user, h, c) || (h == newId && c == claim) {}
    forall c | CarriedOnce(db, c) ensures CarriedOnce(d, c) {
      forall g, h | Carries(d, g, c) && Carries(d, h, c) ensures g == h {
        assert c == claim ==> !Carries(db, g, c) && !Carries(db, h, c);
      }
    }
  }

  lemma NextStaysOne(db: Tables, mid: Tables, d: Tables, user: string, front: seq<string>, claim: string)
    requires Unambiguous(db, front + [claim]) && (Unambiguous(db, front) ==> OneGroupEach(mid, user))
    requires JoinedAll(db, mid, user, front) && AddsOne(mid, d, user, claim)
    requires forall c | CarriedOnce(db, c) :: CarriedOnce(mid, c)
    requires NoEmptyClaim(d)
    ensures OneGroupEach(d, user)
  {
    var claims := front + [claim];
    forall c | ListedTwice(front, c) ensures ListedTwice(claims, c) {
      var i, j :| 0 <= i < j < |front| && front[i] == front[j] == c;
      assert claims[i] == claims[j] == c;
    }
    forall g, h, c | InGroupOf(d, user, g, c) && InGroupOf(d, user, h, c) ensures g == h {
      if c == claim && Belongs(mid, user, c) {
        var i :| 0 <= i < |front| && front[i] == c;
        assert claims[i] == claims[|front|] == c && ListedTwice(claims, c);
        assert CarriedOnce(d, c);
      } else if c == claim {
        assert !InGroupOf(mid, user, g, c) && !InGroupOf(mid, user, h, c);
      }
    }
  }

  /** Claims on behalf of a user who is in no group yet, with fresh ids and without faults. */
  ghost predicate Joining(db: Tables, user: string, claims: seq<string>, newIds: seq<string>, fs: seq<GroupFaults>) {
    && Consistent(db) && NoEmptyClaim(db) && user in db.users && (forall m | m in db.members :: m.1 != user)
    && |newIds| == |claims| == |fs| && FreshGroups(db, newIds) && forall f | f in fs :: f == NO_FAULT
  }

  /** The state before the last claim. */
  lemma BeforeTheLast(
    db: Tables, d: Tables, user: string, claims: seq<string>, newIds: seq<string>, fs: seq<GroupFaults>)
    returns (mid: Tables)
    requires claims != [] && Joining(db, user, claims, newIds, fs) && SyncedAll(db, d, user, claims, newIds, fs)
    ensures var n := |claims| - 1;
            && Joining(db, user, claims[..n], newIds[..n], fs[..n])
            && SyncedAll(db, mid, user, claims[..n], newIds[..n], fs[..n])
            && Consistent(mid) && NoEmptyClaim(mid) && user in mid.users && newIds[n] !in mid.groups
            && JoinedAll(db, mid, user, claims[..n]) && Synced(mid, d, user, claims[n], newIds[n], NO_FAULT)
  {
    var n := |claims| - 1;
    mid :| SyncedAll(db, mid, user, claims[..n], newIds[..n], fs[..n])
      && Synced(mid, d, user, claims[n], newIds[n], fs[n]);
    SyncKeeps(db, mid, user, claims[..n], newIds[..n], fs[..n]);
    assert forall f | f in fs[..n] :: f in fs;
    AllClaims(db, mid, user, claims[..n], newIds[..n], fs[..n]);
    assert fs[n] in fs && newIds[n] in newIds;
  }

  /** One group for each claim, unless the claims are ambiguous; and what was carried once still is. */
  ghost predicate JoinedOnce(db: Tables, d: Tables, user: string, claims: seq<string>) {
    && (Unambiguous(db, claims) ==> OneGroupEach(d, user))
    && (forall c | CarriedOnce(db, c) :: CarriedOnce(d, c))
  }

  lemma NothingJoinedOnce(db: Tables, user: string)
    requires forall m | m in db.members :: m.1 != user
    ensures JoinedOnce(db, db, user, [])
  {
    assert forall g, c :: !InGroupOf(db, user, g, c);
  }

  lemma {:induction false} UnambiguousJoinsOnce(
    db: Tables, d: Tables, user: string, claims: seq<string>, newIds: seq<string>, fs: seq<GroupFaults>)
    requires Joining(db, user, claims, newIds, fs) && SyncedAll(db, d, user, claims, newIds, fs)
    ensures JoinedOnce(db, d, user, claims)
    decreases |claims|
  {
    if claims == [] {
      NothingJoinedOnce(db, user);
    } else {
      var n := |claims| - 1;
      var mid := BeforeTheLast(db, d, user, claims, newIds, fs);
      UnambiguousJoinsOnce(db, mid, user, claims[..n], newIds[..n], fs[..n]);
      OneMoreJoinsOnce(db, mid, d, user, claims, newIds[n]);
    }
  }

  lemma OneMoreJoinsOnce(db: Tables, mid: Tables, d: Tables, user: string, claims: seq<string>, newId: string)
    requires Consistent(mid) && NoEmptyClaim(mid) && user in mid.users && newId !in mid.groups && claims != []
    requires var n := |claims| - 1;
             && JoinedAll(db, mid, user, claims[..n]) && Synced(mid, d, user, claims[n], newId, NO_FAULT)
             && JoinedOnce(db, mid, user, claims[..n])
    ensures JoinedOnce(db, d, user, claims)
  {
    var n := |claims| - 1;
    OneClaim(mid, d, user, claims[n], newId);
    OneClaimAddsOne(mid, d, user, claims[n], newId);
    assert claims == claims[..n] + [claims[n]];
    if Unambiguous(db, claims) {
      NextStaysOne(db, mid, d, user, claims[..n], claims[n]);
    }
  }

  /** What a claim does when the look-up finds this group, if it has the claim, or else any. */
  lemma OneClaimFinding(db: Tables, user: string, claim: string, newId: string, g: string) returns (d: Tables)
    requires user in db.users
    ensures Synced(db, d, user, claim, newId, NO_FAULT)
    ensures GroupsKept(db, d) && d.users == db.users
    ensures Carries(db, g, claim) ==> (g, user) in d.members
  {
    var (grown, created) := GroupCreated(db, newId, Group(claim, NullString(claim)));
    if Carries(db, g, claim) {
      d := WithMember(db, g, user, false);
    } else if h :| Carries(db, h, claim) {
      d := WithMember(db, h, user, false);
    } else if created {
      d := WithMember(grown, newId, user, false);
    } else {
      d := db;
    }
  }

  lemma SyncedOneMore(
    db: Tables, mid: Tables, d: Tables, user: string, claims: seq<string>, newIds: seq<string>, fs: seq<GroupFaults>)
    requires |newIds| == |claims| == |fs| > 0
    requires var n := |claims| - 1;
             && SyncedAll(db, mid, user, claims[..n], newIds[..n], fs[..n])
             && Synced(mid, d, user, claims[n], newIds[n], fs[n])
    ensures SyncedAll(db, d, user, claims, newIds, fs)
  {
  }

  /** The look-ups find g where they can. */
  lemma {:induction false} AllFinding(
    db: Tables, user: string, claims: seq<string>, newIds: seq<string>, fs: seq<GroupFaults>, g: string, claim: string)
    returns (d: Tables)
    requires user in db.users && |newIds| == |claims| == |fs| && forall f | f in fs :: f == NO_FAULT
    requires Carries(db, g, claim)
    ensures SyncedAll(db, d, user, claims, newIds, fs)
    ensures GroupsKept(db, d) && d.users == db.users
    ensures claim in claims ==> (g, user) in d.members
    decreases |claims|
  {
    if claims == [] {
      d := db;
    } else {
      var n := |claims| - 1;
      assert forall f | f in fs[..n] :: f in fs;
      var mid := AllFinding(db, user, claims[..n], newIds[..n], fs[..n], g, claim);
      d := OneClaimFinding(mid, user, claims[n], newIds[n], g);
      assert fs[n] in fs && claims == claims[..n] + [claims[n]];
      SyncedOneMore(db, mid, d, user, claims, newIds, fs);
      assert Carries(mid, g, claim);
    }
  }

  /** Look-ups up to a claim find g, from there on h. */
  lemma {:induction false} FindingBoth(
    db: Tables, user: string, claims: seq<string>, newIds: seq<string>, fs: seq<GroupFaults>,
    i: nat, j: nat, g: string, h: string) returns (d: Tables)
    requires user in db.users && |newIds| == |claims| == |fs| && forall f | f in fs :: f == NO_FAULT
    requires i < j < |claims| && claims[i] == claims[j] && Carries(db, g, claims[i]) && Carries(db, h, claims[i])
    ensures SyncedAll(db, d, user, claims, newIds, fs)
    ensures GroupsKept(db, d) && d.users == db.users
    ensures (g, user) in d.members && (h, user) in d.members
    decreases |claims|
  {
    var n := |claims| - 1;
    assert forall f | f in fs[..n] :: f in fs;
    assert fs[n] in fs;
    var mid: Tables;
    if j < n {
      mid := FindingBoth(db, user, claims[..n], newIds[..n], fs[..n], i, j, g, h);
    } else {
      assert claims[..n][i] == claims[i];
      mid := AllFinding(db, user, claims[..n], newIds[..n], fs[..n], g, claims[i]);
    }
    assert Carries(mid, h, claims[i]);
    d := OneClaimFinding(mid, user, claims[n], newIds[n], h);
    SyncedOneMore(db, mid, d, user, claims, newIds, fs);
  }

  lemma CreatedKeepsCarried(db: Tables, id: string, user: User)
    ensures forall c :: CarriedOnce(UserCreated(db, id, user).0, c) <==> CarriedOnce(db, c)
  {
    var grown := UserCreated(db, id, user).0;
    forall c ensures CarriedOnce(grown, c) <==> CarriedOnce(db, c) {
      assert forall g :: Carries(grown, g, c) <==> Carries(db, g, c);
    }
  }

  lemma UnambiguousLogin(db: Tables, d: Tables, login: Login, draw: Draw, faults: Faults, user: Option<string>)
    requires Consistent(db) && NoEmptyClaim(db) && FirstLogin(db, login, draw, faults)
    requires Unambiguous(db, login.groups) && Provisioned(db, d, login, draw, faults, user)
    ensures OneGroupEach(d, draw.user)
  {
    var grown := UserCreated(db, draw.user, NewUser(login)).0;
    UserCreatedKeeps(db, draw.user, NewUser(login));
    CreationGoesThrough(db, login, draw.user);
    CreatedKeepsCarried(db, draw.user, NewUser(login));
    UnambiguousJoinsOnce(grown, d, draw.user, login.groups, draw.groups, faults.groups);
  }

  lemma AmbiguousLogin(db: Tables, login: Login, draw: Draw, faults: Faults) returns (d: Tables)
    requires FirstLogin(db, login, draw, faults) && !Unambiguous(db, login.groups)
    ensures Provisioned(db, d, login, draw, faults, Some(draw.user)) && !OneGroupEach(d, draw.user)
  {
    var grown := UserCreated(db, draw.user, NewUser(login)).0;
    CreationGoesThrough(db, login, draw.user);
    CreatedKeepsCarried(db, draw.user, NewUser(login));
    var c :| c != "" && ListedTwice(login.groups, c) && !CarriedOnce(grown, c);
    var i, j :| 0 <= i < j < |login.groups| && login.groups[i] == login.groups[j] == c;
    var g, h :| Carries(grown, g, c) && Carries(grown, h, c) && g != h;
    d := FindingBoth(grown, draw.user, login.groups, draw.groups, faults.groups, i, j, g, h);
    assert InGroupOf(d, draw.user, g, c) && InGroupOf(d, draw.user, h, c);
  }

  /**
   * A first login puts its user in at most one group for each claim, whichever groups the look-ups find, if
   * and only if no non-empty claim that two groups carry is listed twice.
   */
  lemma OneGroupEachIff(db: Tables, login: Login, draw: Draw, faults: Faults)
    requires Consistent(db) && NoEmptyClaim(db) && FirstLogin(db, login, draw, faults)
    ensures (forall d, user | Provisioned(db, d, login, draw, faults, user) :: OneGroupEach(d, draw.user))
            <==> Unambiguous(db, login.groups)
  {
    if Unambiguous(db, login.groups) {
      forall d, user | Provisioned(db, d, login, draw, faults, user) ensures OneGroupEach(d, draw.user) {
        UnambiguousLogin(db, d, login, draw, faults, user);
      }
    } else {
      var d := AmbiguousLogin(db, login, draw, faults);
    }
  }

  /** When every group came from a claim, every non-empty claim is joinable: one group for each. */
  lemma OneGroupPerClaim(db: Tables, d: Tables, login: Login, draw: Draw, faults: Faults, user: Option<string>)
    requires Consistent(db) && AllFromClaims(db) && "" !in login.groups && FirstLogin(db, login, draw, faults)
    requires Provisioned(db, d, login, draw, faults, user)
    ensures user == Some(draw.user)
    ensures forall c :: Belongs(d, draw.user, c) <==> c in login.groups
    ensures OneGroupEach(d, draw.user)
    ensures forall m | m in d.members && m.1 == draw.user :: ClaimedFrom(d, m.0, login.groups)
  {
    forall c | c != "" ensures Joinable(db, c) {
      if Named(db, c) {
        var g :| g in db.groups && db.groups[g].name == c;
        assert Carries(db, g, c);
      }
    }
    NewUserJoinsItsClaims(db, d, login, draw, faults, user);
    assert forall c :: CarriedOnce(db, c);
    OneGroupEachIff(db, login, draw, faults);
  }

  // ---------------------------------------------------------------- groups made by logins only

  lemma SyncKeepsAllFromClaims(db: Tables, d: Tables, user: string, claim: string, newId: string, f: GroupFaults)
    requires Synced(db, d, user, claim, newId, f) && claim != "" && AllFromClaims(db)
    ensures AllFromClaims(d)
  {
    SyncedGroups(db, d, user, claim, newId, f);
  }

  lemma SyncedGroups(db: Tables, d: Tables, user: string, claim: string, newId: string, f: GroupFaults)
    requires Synced(db, d, user, claim, newId, f)
    ensures d.groups == db.groups || d.groups == db.groups[newId := Group(claim, NullString(claim))]
  {
    if Carried(db, claim) && d != db {
      var g :| d == WithMember(db, g, user, f.add);
    }
  }

  lemma {:induction false} SyncsKeepAllFromClaims(
    db: Tables, d: Tables, user: string, claims: seq<string>, newIds: seq<string>, fs: seq<GroupFaults>)
    requires |newIds| == |claims| == |fs| && SyncedAll(db, d, user, claims, newIds, fs)
    requires "" !in claims && AllFromClaims(db)
    ensures AllFromClaims(d)
    decreases |claims|
  {
    if claims != [] {
      var n := |claims| - 1;
      var mid :| SyncedAll(db, mid, user, claims[..n], newIds[..n], fs[..n])
        && Synced(mid, d, user, claims[n], newIds[n], fs[n]);
      SyncsKeepAllFromClaims(db, mid, user, claims[..n], newIds[..n], fs[..n]);
      SyncKeepsAllFromClaims(mid, d, user, claims[n], newIds[n], fs[n]);
    }
  }

  lemma OtherOperationsKeepGroups(db: Tables, op: Op)
    requires !op.CreateGroup?
    ensures Exec(db, op).0.groups == db.groups
  {
    if op.InsertCostRecords? {
      BatchIsAllOrNothing(db, op.batch);
    }
  }

  /** Groups are made by logins with non-empty claims, and nowhere else. */
  predicate MakesGroupsFromClaims(change: Change) {
    match change
    case SignIn(login, _, _, _) => "" !in login.groups
    case Operation(op) => !op.CreateGroup?
  }

  lemma ChangeKeepsAllFromClaims(db: Tables, d: Tables, change: Change)
    requires Changed(db, d, change) && MakesGroupsFromClaims(change) && AllFromClaims(db)
    ensures AllFromClaims(d)
  {
    match change
    case SignIn(login, draw, faults, user) =>
      var grown := UserCreated(db, draw.user, NewUser(login)).0;
      if SyncedAll(grown, d, draw.user, login.groups, draw.groups, faults.groups) {
        SyncsKeepAllFromClaims(grown, d, draw.user, login.groups, draw.groups, faults.groups);
      }
    case Operation(op) => OtherOperationsKeepGroups(db, op);
  }

  ghost predicate KeepsAllFromClaims(db: Tables, d: Tables) {
    AllFromClaims(db) ==> AllFromClaims(d)
  }

  lemma {:induction false} StepsKeepAllFromClaims(dbs: seq<Tables>, j: nat)
    requires j < |dbs| && AllFromClaims(dbs[0]) && forall k | 0 <= k < |dbs| - 1 ::
             KeepsAllFromClaims(dbs[k], dbs[k + 1])
    ensures AllFromClaims(dbs[j])
  {
    if j > 0 {
      StepsKeepAllFromClaims(dbs, j - 1);
      assert KeepsAllFromClaims(dbs[j - 1], dbs[j - 1 + 1]);
    }
  }

  lemma GroupsComeFromClaims(dbs: seq<Tables>, changes: seq<Change>, j: nat)
    requires History(dbs, changes) && j < |dbs| && dbs[0].groups == map[]
    requires forall c | c in changes :: MakesGroupsFromClaims(c)
    ensures AllFromClaims(dbs[j])
  {
    forall k | 0 <= k < |dbs| - 1 ensures KeepsAllFromClaims(dbs[k], dbs[k + 1]) {
      assert changes[k] in changes;
      if AllFromClaims(dbs[k]) {
        ChangeKeepsAllFromClaims(dbs[k], dbs[k + 1], changes[k]);
      }
    }
    StepsKeepAllFromClaims(dbs, j);
  }

  /** Then no two groups ever share a claim. */
  lemma ClaimsStayUnique(dbs: seq<Tables>, changes: seq<Change>, j: nat)
    requires History(dbs, changes) && j < |dbs| && dbs[0].groups == map[]
    requires forall c | c in changes :: MakesGroupsFromClaims(c)
    ensures ClaimsUnique(dbs[j])
  {
    HistoryKeeps(dbs, changes, j, j);
    GroupsComeFromClaims(dbs, changes, j);
    var groups := dbs[j].groups;
    assert forall g | g in groups :: groups[g].oidcClaim == Some(groups[g].name);
  }

  /**
   * Over whole runs, past failures included: as long as groups are only made from non-empty claims, a
   * first login without failures puts its user in exactly one group for each distinct claim.
   */
  lemma FirstLoginsJoinEachClaimOnce(dbs: seq<Tables>, changes: seq<Change>, j: nat)
    requires History(dbs, changes) && dbs[0].groups == map[] && forall c | c in changes :: MakesGroupsFromClaims(c)
    requires j < |changes| && changes[j].SignIn? && Flawless(changes[j].faults)
    requires var SignIn(login, draw, _, _) := changes[j];
             && draw.user !in dbs[j].users && FreshGroups(dbs[j], draw.groups)
             && !KnownSubject(dbs[j], login.subject) && !KnownEmail(dbs[j], login.email)
    ensures var SignIn(login, draw, _, user) := changes[j];
            && user == Some(draw.user)
            && (forall c :: Belongs(dbs[j + 1], draw.user, c) <==> c in login.groups)
            && OneGroupEach(dbs[j + 1], draw.user)
            && (forall m | m in dbs[j + 1].members && m.1 == draw.user :: ClaimedFrom(dbs[j + 1], m.0, login.groups))
  {
    var SignIn(login, draw, faults, user) := changes[j];
    HistoryKeeps(dbs, changes, j, j);
    GroupsComeFromClaims(dbs, changes, j);
    assert Changed(dbs[j], dbs[j + 1], changes[j]) && changes[j] in changes;
    OneGroupPerClaim(dbs[j], dbs[j + 1], login, draw, faults, user);
  }

  // ---------------------------------------------------------------- histories that show the limits

  /** A user who is found by address gets no subject, and is somebody else when the address changes. */
  lemma FoundByAddressThenAnother() returns (dbs: seq<Tables>, changes: seq<Change>)
    ensures History(dbs, changes) && dbs[0] == EMPTY && |changes| == 3
    ensures changes[1].SignIn? && changes[2].SignIn? && changes[1].login.subject == changes[2].login.subject != ""
    ensures changes[1].user == Some("u") && changes[2].user == Some("v")
  {
    var known, new_ := User("old@x", "", None), Login("s", "new@x", "", []);
    var db1 := EMPTY.(users := map["u" := known]);
    var db2 := db1.(users := db1.users["v" := NewUser(new_)]);
    var create := Operation(Op.CreateUser("u", known));
    var found := SignIn(Login("s", "old@x", "", []), Draw("w", []), Faults(false, false, false, []), Some("u"));
    var other := SignIn(new_, Draw("v", []), Faults(false, false, false, []), Some("v"));
    assert Changed(EMPTY, db1, create);
    assert HasEmail(db1, "u", "old@x") && Changed(db1, db1, found);
    assert Changed(db1, db2, other);
    dbs, changes := [EMPTY, db1, db1, db2], [create, found, other];
  }

  /** A group that has the name of a claim but not the claim keeps a new user out, without any failure. */
  lemma NamedGroupKeepsOut() returns (dbs: seq<Tables>, changes: seq<Change>)
    ensures History(dbs, changes) && dbs[0] == EMPTY && |changes| == 2
    ensures changes[1].SignIn? && Flawless(changes[1].faults) && changes[1].login.groups == ["dev"]
    ensures changes[1].user == Some("u") && dbs[2].members == {}
  {
    var group, login := Group("dev", None), Login("s", "a@x", "", ["dev"]);
    var db1 := EMPTY.(groups := map["g" := group]);
    var db2 := db1.(users := map["u" := NewUser(login)]);
    var create := Operation(Op.CreateGroup("g", group));
    var first := SignIn(login, Draw("u", ["h"]), Faults(false, false, false, [NO_FAULT]), Some("u"));
    assert Changed(EMPTY, db1, create);
    assert UserCreated(db1, "u", NewUser(login)) == (db2, true);
    assert db2.groups["g"].name == "dev" && !GroupCreated(db2, "h", Group("dev", NullString("dev"))).1;
    assert Synced(db2, db2, "u", "dev", "h", NO_FAULT);
    assert SyncedAll(db2, db2, "u", [], [], []);
    SyncedOneMore(db2, db2, db2, "u", ["dev"], ["h"], [NO_FAULT]);
    assert Changed(db1, db2, first);
    dbs, changes := [EMPTY, db1, db2], [create, first];
  }
}
