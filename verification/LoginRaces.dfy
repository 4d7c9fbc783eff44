/**
 * Logins that run at the same time: provisionUser and syncGroup store call by store call, interleaved with
 * each other and with every other store operation.
 */
module LoginRaces {
  import opened Basics
  import opened Tables
  import opened Store
  import opened Identity

  /** Where a login stands: before each store call, and at the end, with the user it returns. */
  datatype Phase =
    | Started(login: Login)
    | SubjectUnknown(login: Login)
    | AddressUnknown(login: Login)
    | Syncing(login: Login, user: string, k: nat)
    | GroupMissing(login: Login, user: string, k: nat)
    | GroupFound(login: Login, user: string, k: nat, group: string)
    | Returned(login: Login, result: Option<string>)

  datatype System = System(db: Tables, logins: map<nat, Phase>)

  /** A look-up says what it finds, a creation which id is drawn; any store call may fail. */
  datatype Action =
    | Operate(op: Op)
    | Begin(n: nat, login: Login)
    | LookUpSubject(n: nat, found: Option<string>)
    | LookUpAddress(n: nat, found: Option<string>)
    | CreateUserRow(n: nat, id: string)
    | FindGroup(n: nat, found: Option<string>)
    | MakeGroup(n: nat, id: string)
    | AddMember(n: nat)
    | CallFails(n: nat)

  predicate InSync(phase: Phase) {
    (phase.Syncing? || phase.GroupMissing? || phase.GroupFound?) && phase.k < |phase.login.groups|
  }

  ghost predicate Enabled(s: System, a: Action) {
    match a
    case Operate(_) => true
    case Begin(n, _) => n !in s.logins
    case LookUpSubject(n, found) =>
      && n in s.logins && s.logins[n].Started?
      && var subject := s.logins[n].login.subject;
      if found.Some? then HasSubject(s.db, found.value, subject) else !KnownSubject(s.db, subject)
    case LookUpAddress(n, found) =>
      && n in s.logins && s.logins[n].SubjectUnknown?
      && var email := s.logins[n].login.email;
      if found.Some? then HasEmail(s.db, found.value, email) else !KnownEmail(s.db, email)
    case CreateUserRow(n, _) => n in s.logins && s.logins[n].AddressUnknown?
    case FindGroup(n, found) =>
      && n in s.logins && s.logins[n].Syncing? && InSync(s.logins[n])
      && var claim := s.logins[n].login.groups[s.logins[n].k];
      if found.Some? then Carries(s.db, found.value, claim) else !Carried(s.db, claim)
    case MakeGroup(n, _) => n in s.logins && s.logins[n].GroupMissing? && InSync(s.logins[n])
    case AddMember(n) => n in s.logins && s.logins[n].GroupFound? && InSync(s.logins[n])
    case CallFails(n) => n in s.logins && !s.logins[n].Returned?
  }

  function At(s: System, n: nat, phase: Phase): System {
    s.(logins := s.logins[n := phase])
  }

  /** The loop over the claims is at this claim, or over. */
  function AtClaim(login: Login, user: string, k: nat): Phase {
    if k < |login.groups| then Syncing(login, user, k) else Returned(login, Some(user))
  }

  function Apply(s: System, a: Action): System
    requires Enabled(s, a)
  {
    match a
    case Operate(op) => s.(db := Exec(s.db, op).0)
    case Begin(n, login) => At(s, n, Started(login))
    case LookUpSubject(n, found) =>
      var login := s.logins[n].login;
      At(s, n, if found.Some? then Returned(login, found) else SubjectUnknown(login))
    case LookUpAddress(n, found) =>
      var login := s.logins[n].login;
      At(s, n, if found.Some? then Returned(login, found) else AddressUnknown(login))
    case CreateUserRow(n, id) =>
      var login := s.logins[n].login;
      var (db, created) := UserCreated(s.db, id, NewUser(login));
      At(s.(db := db), n, if created then AtClaim(login, id, 0) else Returned(login, None))
    case FindGroup(n, found) =>
      var Syncing(login, user, k) := s.logins[n];
      At(s, n, if found.Some? then GroupFound(login, user, k, found.value) else GroupMissing(login, user, k))
    case MakeGroup(n, id) =>
      var GroupMissing(login, user, k) := s.logins[n];
      var (db, created) := GroupCreated(s.db, id, Group(login.groups[k], NullString(login.groups[k])));
      At(s.(db := db), n, if created then GroupFound(login, user, k, id) else AtClaim(login, user, k + 1))
    case AddMember(n) =>
      var GroupFound(login, user, k, group) := s.logins[n];
      At(s.(db := MemberAdded(s.db, group, user).0), n, AtClaim(login, user, k + 1))
    case CallFails(n) => At(s, n, Failed(s.logins[n]))
  }

  /** A failed call ends the login before its user is there, and the claim afterwards. */
  function Failed(phase: Phase): Phase
    requires !phase.Returned?
  {
    if phase.Started? || phase.SubjectUnknown? || phase.AddressUnknown? then Returned(phase.login, None)
    else AtClaim(phase.login, phase.user, phase.k + 1)
  }

  ghost predicate Possible(s: System, run: seq<Action>)
    decreases |run|
  {
    run == [] || (Enabled(s, run[0]) && Possible(Apply(s, run[0]), run[1..]))
  }

  function After(s: System, run: seq<Action>): System
    requires Possible(s, run)
    decreases |run|
  {
    if run == [] then s else After(Apply(s, run[0]), run[1..])
  }

  const INITIAL := System(EMPTY, map[])

  // ---------------------------------------------------------------- the right user, whoever races

  /** The user of a login is there, and has the login's subject or its address. */
  ghost predicate RightUser(db: Tables, login: Login, u: string) {
    u in db.users && (HasSubject(db, u, login.subject) || HasEmail(db, u, login.email))
  }

  ghost predicate RightPhase(db: Tables, phase: Phase) {
    match phase
    case Returned(login, result) => result.Some? ==> RightUser(db, login, result.value)
    case Syncing(login, user, _) => RightUser(db, login, user)
    case GroupMissing(login, user, _) => RightUser(db, login, user)
    case GroupFound(login, user, _, _) => RightUser(db, login, user)
    case _ => true
  }

  ghost predicate Right(s: System) {
    Consistent(s.db) && forall n | n in s.logins :: RightPhase(s.db, s.logins[n])
  }

  lemma UsersStayRight(s: System, db: Tables)
    requires Right(s) && UsersKept(s.db, db)
    ensures forall n | n in s.logins :: RightPhase(db, s.logins[n])
  {
    forall n | n in s.logins ensures RightPhase(db, s.logins[n]) {
      assert RightPhase(s.db, s.logins[n]);
    }
  }

  /** One login moves on, and the tables with it. */
  lemma MoveStaysRight(s: System, s': System, n: nat)
    requires Right(s) && UsersKept(s.db, s'.db) && Consistent(s'.db)
    requires n in s'.logins && s'.logins == s.logins[n := s'.logins[n]] && RightPhase(s'.db, s'.logins[n])
    ensures Right(s')
  {
    UsersStayRight(s, s'.db);
  }

  lemma CreationStaysRight(s: System, n: nat, id: string)
    requires Right(s) && Enabled(s, CreateUserRow(n, id))
    ensures Right(Apply(s, CreateUserRow(n, id)))
  {
    var login := s.logins[n].login;
    UserCreatedKeeps(s.db, id, NewUser(login));
    var s' := Apply(s, CreateUserRow(n, id));
    assert UserCreated(s.db, id, NewUser(login)).1 ==> HasEmail(s'.db, id, login.email);
    MoveStaysRight(s, s', n);
  }

  lemma SyncStaysRight(s: System, a: Action)
    requires Right(s) && Enabled(s, a) && (a.MakeGroup? || a.AddMember?)
    ensures Right(Apply(s, a))
  {
    var phase := s.logins[a.n];
    var claim := phase.login.groups[phase.k];
    assert RightPhase(s.db, phase);
    if a.MakeGroup? {
      GroupCreatedKeeps(s.db, a.id, Group(claim, NullString(claim)));
    } else {
      ExecKeepsConsistent(s.db, AddGroupMember(phase.group, phase.user));
    }
    MoveStaysRight(s, Apply(s, a), a.n);
  }

  lemma ReadStaysRight(s: System, a: Action)
    requires Right(s) && Enabled(s, a)
    requires a.Begin? || a.LookUpSubject? || a.LookUpAddress? || a.FindGroup? || a.CallFails?
    ensures Right(Apply(s, a))
  {
    if !a.Begin? {
      assert RightPhase(s.db, s.logins[a.n]);
    }
    MoveStaysRight(s, Apply(s, a), a.n);
  }

  lemma ActionStaysRight(s: System, a: Action)
    requires Right(s) && Enabled(s, a)
    ensures Right(Apply(s, a)) && UsersKept(s.db, Apply(s, a).db)
  {
    if a.Operate? {
      ExecKeepsConsistent(s.db, a.op);
      OperationKeepsUsers(s.db, a.op);
      UsersStayRight(s, Apply(s, a).db);
    } else if a.CreateUserRow? {
      CreationStaysRight(s, a.n, a.id);
    } else if a.MakeGroup? || a.AddMember? {
      SyncStaysRight(s, a);
    } else {
      ReadStaysRight(s, a);
    }
  }

  lemma {:induction false} RunStaysRight(s: System, run: seq<Action>)
    requires Right(s) && Possible(s, run)
    ensures Right(After(s, run)) && UsersKept(s.db, After(s, run).db)
    decreases |run|
  {
    if run != [] {
      ActionStaysRight(s, run[0]);
      RunStaysRight(Apply(s, run[0]), run[1..]);
    }
  }

  /**
   * In every interleaving of logins and store operations: the constraints hold, every login that has
   * returned a user returned one with its subject or its address, and two logins with one subject whose
   * users both carry it have returned the same user.
   */
  lemma RacingLoginsReturnRightUsers(run: seq<Action>, m: nat, n: nat, u: string, v: string)
    requires Possible(INITIAL, run)
    requires var s := After(INITIAL, run);
             && m in s.logins && n in s.logins && s.logins[m].Returned? && s.logins[n].Returned?
             && s.logins[m].result == Some(u) && s.logins[n].result == Some(v)
    ensures var s := After(INITIAL, run);
            && Consistent(s.db)
            && RightUser(s.db, s.logins[m].login, u) && RightUser(s.db, s.logins[n].login, v)
            && (s.logins[m].login.subject == s.logins[n].login.subject
                && HasSubject(s.db, u, s.logins[m].login.subject) && HasSubject(s.db, v, s.logins[n].login.subject)
                ==> u == v)
  {
    RunStaysRight(INITIAL, run);
    var s := After(INITIAL, run);
    assert RightPhase(s.db, s.logins[m]) && RightPhase(s.db, s.logins[n]);
  }

  /**
   * Whoever races: once a row carries a subject, every later look-up of that subject finds this row, so that
   * a login that looks up afterwards returns this user.
   */
  lemma LaterLookUpFindsIt(run: seq<Action>, more: seq<Action>, u: string, n: nat, found: Option<string>)
    requires Possible(INITIAL, run) && Possible(After(INITIAL, run), more)
    requires var s := After(After(INITIAL, run), more);
             Enabled(s, LookUpSubject(n, found)) && HasSubject(After(INITIAL, run).db, u, s.logins[n].login.subject)
    ensures found == Some(u)
  {
    RunStaysRight(INITIAL, run);
    RunStaysRight(After(INITIAL, run), more);
    var s := After(After(INITIAL, run), more);
    assert HasSubject(s.db, u, s.logins[n].login.subject);
  }

  // ---------------------------------------------------------------- racing for a group

  /** Groups are made by logins with non-empty claims only. */
  predicate FromClaims(a: Action) {
    match a
    case Operate(op) => !op.CreateGroup?
    case Begin(_, login) => "" !in login.groups
    case _ => true
  }

  ghost predicate ClaimsGiven(s: System) {
    AllFromClaims(s.db) && forall n | n in s.logins :: "" !in s.logins[n].login.groups
  }

  lemma MadeGroupIsFromClaim(db: Tables, id: string, claim: string)
    requires AllFromClaims(db) && claim != ""
    ensures AllFromClaims(GroupCreated(db, id, Group(claim, NullString(claim))).0)
  {
  }

  lemma OthersLeaveGroups(s: System, a: Action)
    requires Enabled(s, a) && FromClaims(a) && !a.MakeGroup?
    ensures Apply(s, a).db.groups == s.db.groups
  {
    if a.Operate? {
      OtherOperationsKeepGroups(s.db, a.op);
    }
  }

  lemma LoginsStayThemselves(s: System, a: Action)
    requires Enabled(s, a)
    ensures forall n | n in Apply(s, a).logins ::
              if n in s.logins then Apply(s, a).logins[n].login == s.logins[n].login
              else a.Begin? && Apply(s, a).logins[n].login == a.login
  {
  }

  lemma ActionKeepsClaimsGiven(s: System, a: Action)
    requires ClaimsGiven(s) && Enabled(s, a) && FromClaims(a)
    ensures ClaimsGiven(Apply(s, a))
  {
    LoginsStayThemselves(s, a);
    if a.MakeGroup? {
      var phase := s.logins[a.n];
      assert phase.login.groups[phase.k] in phase.login.groups;
      MadeGroupIsFromClaim(s.db, a.id, phase.login.groups[phase.k]);
    } else {
      OthersLeaveGroups(s, a);
    }
  }

  lemma {:induction false} RunKeepsClaimsGiven(s: System, run: seq<Action>)
    requires ClaimsGiven(s) && Possible(s, run) && forall a | a in run :: FromClaims(a)
    ensures ClaimsGiven(After(s, run))
    decreases |run|
  {
    if run != [] {
      ActionKeepsClaimsGiven(s, run[0]);
      RunKeepsClaimsGiven(Apply(s, run[0]), run[1..]);
    }
  }

  /** However logins race for new claims, no claim ever gets a second group. */
  lemma RacesMakeOneGroupPerClaim(run: seq<Action>)
    requires Possible(INITIAL, run) && forall a | a in run :: FromClaims(a)
    ensures ClaimsUnique(After(INITIAL, run).db)
  {
    RunKeepsClaimsGiven(INITIAL, run);
    RunStaysRight(INITIAL, run);
    var groups := After(INITIAL, run).db.groups;
    assert forall g | g in groups :: groups[g].oidcClaim == Some(groups[g].name);
  }

  // ---------------------------------------------------------------- a membership lost in a race

  lemma {:induction false} OneMore(s: System, run: seq<Action>, a: Action)
    requires Possible(s, run) && Enabled(After(s, run), a)
    ensures Possible(s, run + [a]) && After(s, run + [a]) == Apply(After(s, run), a)
    decreases |run|
  {
    if run == [] {
      assert run + [a] == [a] && [a][1..] == [];
    } else {
      assert (run + [a])[1..] == run[1..] + [a];
      OneMore(Apply(s, run[0]), run[1..], a);
    }
  }

  function Operations(ops: seq<Op>): seq<Action> {
    if ops == [] then [] else Operations(ops[..|ops| - 1]) + [Operate(ops[|ops| - 1])]
  }

  /** Between the steps of logins, the store takes operations in any sequence, as it does without logins. */
  lemma {:induction false} EveryStoreHistoryHappens(s: System, ops: seq<Op>)
    ensures Possible(s, Operations(ops))
    ensures After(s, Operations(ops)) == s.(db := After(s, Operations(ops)).db)
    ensures s.db == EMPTY ==> After(s, Operations(ops)).db == ExecAll(EMPTY, ops)
  {
    if ops != [] {
      var front, last := ops[..|ops| - 1], ops[|ops| - 1];
      EveryStoreHistoryHappens(s, front);
      OneMore(s, Operations(front), Operate(last));
    }
  }

  predicate NoCallFails(run: seq<Action>) {
    forall a | a in run :: !a.CallFails?
  }

  /** One more action of a run in which no call fails. */
  lemma GoOn(run: seq<Action>, a: Action) returns (more: seq<Action>)
    requires Possible(INITIAL, run) && NoCallFails(run) && Enabled(After(INITIAL, run), a) && !a.CallFails?
    ensures Possible(INITIAL, more) && NoCallFails(more) && After(INITIAL, more) == Apply(After(INITIAL, run), a)
  {
    OneMore(INITIAL, run, a);
    more := run + [a];
  }

  /** Neither the subject nor the address of a login is known. */
  lemma UpToUnknown(run: seq<Action>, n: nat, login: Login) returns (more: seq<Action>)
    requires Possible(INITIAL, run) && NoCallFails(run)
    requires var s := After(INITIAL, run);
             n !in s.logins && !KnownSubject(s.db, login.subject) && !KnownEmail(s.db, login.email)
    ensures Possible(INITIAL, more) && NoCallFails(more)
    ensures var s := After(INITIAL, run);
            After(INITIAL, more) == System(s.db, s.logins[n := AddressUnknown(login)])
  {
    var s := After(INITIAL, run);
    more := GoOn(run, Begin(n, login));
    more := GoOn(more, LookUpSubject(n, None));
    more := GoOn(more, LookUpAddress(n, None));
    assert After(INITIAL, more).logins == s.logins[n := AddressUnknown(login)];
  }

  /** A first login gets as far as finding no group for its only claim. */
  lemma UpToNoGroup(run: seq<Action>, n: nat, login: Login, id: string) returns (more: seq<Action>)
    requires Possible(INITIAL, run) && NoCallFails(run)
    requires var s := After(INITIAL, run);
             && n !in s.logins && id !in s.db.users && |login.groups| == 1 && s.db.groups == map[]
             && !KnownSubject(s.db, login.subject) && !KnownEmail(s.db, login.email)
    ensures Possible(INITIAL, more) && NoCallFails(more)
    ensures var s := After(INITIAL, run);
            After(INITIAL, more)
            == System(s.db.(users := s.db.users[id := NewUser(login)]), s.logins[n := GroupMissing(login, id, 0)])
  {
    var s := After(INITIAL, run);
    more := UpToUnknown(run, n, login);
    CreationGoesThrough(s.db, login, id);
    more := GoOn(more, CreateUserRow(n, id));
    var created := After(INITIAL, more);
    assert created.logins[n] == Syncing(login, id, 0) && !Carried(created.db, login.groups[0]);
    more := GoOn(more, FindGroup(n, None));
    assert After(INITIAL, more).logins == s.logins[n := GroupMissing(login, id, 0)];
  }

  /**
   * Two first logins with the same new claim, no call of which fails: both find no group, only one can
   * make it, and the user of the other stays out.
   */
  lemma RaceLosesMembership() returns (run: seq<Action>)
    ensures Possible(INITIAL, run) && NoCallFails(run)
    ensures var s := After(INITIAL, run);
            && s.logins.Keys == {0, 1} && s.logins[0].login.groups == s.logins[1].login.groups == ["dev"]
            && s.logins[0] == Returned(s.logins[0].login, Some("u"))
            && s.logins[1] == Returned(s.logins[1].login, Some("v"))
            && Belongs(s.db, "u", "dev") && !Belongs(s.db, "v", "dev")
  {
    var a, b := Login("s", "a@x", "", ["dev"]), Login("t", "b@x", "", ["dev"]);
    run := BothFindNoGroup(a, b);
    run := BothMakeIt(run, a, b);
    run := OneIsAdded(run, a, b);
  }

  /** Both logins create their users, and find no group. */
  lemma BothFindNoGroup(a: Login, b: Login) returns (run: seq<Action>)
    requires |a.groups| == |b.groups| == 1 && a.email != b.email && NewUser(a).oidcSubject != Some(b.subject)
    ensures Possible(INITIAL, run) && NoCallFails(run)
    ensures var s := After(INITIAL, run);
            && s.logins == map[0 := GroupMissing(a, "u", 0), 1 := GroupMissing(b, "v", 0)]
            && s.db == EMPTY.(users := map["u" := NewUser(a), "v" := NewUser(b)])
  {
    assert Possible(INITIAL, []);
    run := UpToNoGroup([], 0, a, "u");
    assert After(INITIAL, run).db == EMPTY.(users := map["u" := NewUser(a)]);
    run := UpToNoGroup(run, 1, b, "v");
  }

  /** The user of the login that made the group is added to it. */
  lemma OneIsAdded(run: seq<Action>, a: Login, b: Login) returns (more: seq<Action>)
    requires Possible(INITIAL, run) && NoCallFails(run) && |a.groups| == 1
    requires var s := After(INITIAL, run);
             && s.logins == map[0 := GroupFound(a, "u", 0, "g"), 1 := Returned(b, Some("v"))]
             && s.db.groups == map["g" := Group("dev", Some("dev"))] && "u" in s.db.users && s.db.members == {}
    ensures Possible(INITIAL, more) && NoCallFails(more)
    ensures var s := After(INITIAL, more);
            && s.logins == map[0 := Returned(a, Some("u")), 1 := Returned(b, Some("v"))]
            && Belongs(s.db, "u", "dev") && !Belongs(s.db, "v", "dev")
  {
    more := GoOn(run, AddMember(0));
    var s := After(INITIAL, more);
    assert s.db.members == {("g", "u")} && InGroupOf(s.db, "u", "g", "dev");
  }

  /** Both logins try to make the group; the name is taken for the second one. */
  lemma BothMakeIt(run: seq<Action>, a: Login, b: Login) returns (more: seq<Action>)
    requires Possible(INITIAL, run) && NoCallFails(run)
    requires a.groups == b.groups == ["dev"]
    requires var s := After(INITIAL, run);
             s.logins == map[0 := GroupMissing(a, "u", 0), 1 := GroupMissing(b, "v", 0)] && s.db.groups == map[]
    ensures Possible(INITIAL, more) && NoCallFails(more)
    ensures var s, s' := After(INITIAL, run), After(INITIAL, more);
            && s'.logins == map[0 := GroupFound(a, "u", 0, "g"), 1 := Returned(b, Some("v"))]
            && s'.db == s.db.(groups := map["g" := Group("dev", Some("dev"))])
  {
    var dev := Group("dev", Some("dev"));
    more := GoOn(run, MakeGroup(0, "g"));
    var s1 := After(INITIAL, more);
    assert s1.db.groups == map["g" := dev] && s1.logins[0] == GroupFound(a, "u", 0, "g");
    assert s1.db.groups["g"].name == "dev";
    more := GoOn(more, MakeGroup(1, "h"));
  }
}
