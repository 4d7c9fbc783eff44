/** The role decision of internal/auth/rbac.go, and what it means in terms of the role rows. */
module Roles {
  import opened Basics
  import opened Tables
  import Identity

  const PLATFORM_ADMIN := "platform-admin"
  const GLOBAL := "_global"

  /** The identity a request comes with. */
  datatype Session = Session(userId: string, groups: seq<string>)

  datatype RoleRow = RoleRow(key: RoleKey, role: string)

  /** What the store says to a query. */
  datatype Answer<T> = Failed | Found(value: T)

  /** The answers to the two queries made for a group claim. */
  datatype GroupAnswers = GroupAnswers(group: Answer<Option<string>>, roles: Answer<seq<RoleRow>>)

  /** The answers a decision may ask for. */
  datatype Answers = Answers(
    global: Answer<seq<RoleRow>>, own: Answer<Option<string>>, groups: seq<GroupAnswers>)

  // ---------------------------------------------------------------- the decision

  function RoleLevel(role: string): nat {
    match role
    case "platform-admin" => 100
    case "admin" => 30
    case "editor" => 20
    case "viewer" => 10
    case _ => 0
  }

  predicate MakesAdmin(rows: seq<RoleRow>, user: string) {
    rows != []
    && (|| (rows[0].role == PLATFORM_ADMIN && rows[0].key.subjectType == "user" && rows[0].key.subjectId == user)
        || MakesAdmin(rows[1..], user))
  }

  predicate IsPlatformAdmin(global: Answer<seq<RoleRow>>, user: string) {
    global.Found? && MakesAdmin(global.value, user)
  }

  predicate GivesGroup(rows: seq<RoleRow>, group: string, min: string) {
    rows != []
    && (|| (rows[0].key.subjectType == "group" && rows[0].key.subjectId == group
          && RoleLevel(rows[0].role) >= RoleLevel(min))
        || GivesGroup(rows[1..], group, min))
  }

  predicate SomeGroupSuffices(groups: seq<GroupAnswers>, min: string) {
    groups != []
    && (|| (&& groups[0].group.Found? && groups[0].group.value.Some? && groups[0].roles.Found?
            && GivesGroup(groups[0].roles.value, groups[0].group.value.value, min))
        || SomeGroupSuffices(groups[1..], min))
  }

  predicate HasSufficientRole(session: Session, answers: Answers, min: string) {
    if IsPlatformAdmin(answers.global, session.userId) then true
    else if answers.own == Failed || answers.own == Found(None) then SomeGroupSuffices(answers.groups, min)
    else RoleLevel(answers.own.value.value) >= RoleLevel(min)
  }

  // ---------------------------------------------------------------- answers and tables

  /** The rows of a project, each once or more, in any order. */
  ghost predicate ListsRoles(rows: seq<RoleRow>, db: Tables, project: string) {
    && (forall r | r in rows :: r.key in db.roles && r.key.projectId == project && r.role == db.roles[r.key])
    && (forall k | k in db.roles && k.projectId == project :: RoleRow(k, db.roles[k]) in rows)
  }

  function OwnKey(project: string, user: string): RoleKey {
    RoleKey(project, "user", user)
  }

  function OwnRole(db: Tables, project: string, user: string): Option<string> {
    var key := OwnKey(project, user);
    if key in db.roles then Some(db.roles[key]) else None
  }

  ghost predicate FoundByClaim(group: Option<string>, db: Tables, claim: string) {
    if group == None then forall g | g in db.groups :: db.groups[g].oidcClaim != Some(claim)
    else group.value in db.groups && db.groups[group.value].oidcClaim == Some(claim)
  }

  ghost predicate AnswersClaim(a: GroupAnswers, db: Tables, project: string, claim: string) {
    && (a.group.Found? ==> FoundByClaim(a.group.value, db, claim))
    && (a.roles.Found? ==> ListsRoles(a.roles.value, db, project))
  }

  /** Every answer is a failure or what the tables hold. */
  ghost predicate AnswersFrom(answers: Answers, db: Tables, project: string, session: Session) {
    && (answers.global.Found? ==> ListsRoles(answers.global.value, db, GLOBAL))
    && (answers.own.Found? ==> answers.own.value == OwnRole(db, project, session.userId))
    && |answers.groups| == |session.groups|
    && (forall i | 0 <= i < |session.groups| :: AnswersClaim(answers.groups[i], db, project, session.groups[i]))
  }

  predicate Whole(a: GroupAnswers) {
    a.group.Found? && a.roles.Found?
  }

  predicate NothingFailed(answers: Answers) {
    answers.global.Found? && answers.own.Found? && forall a | a in answers.groups :: Whole(a)
  }

  // ---------------------------------------------------------------- the specification

  /** A platform administrator is a user with that role on the project _global. */
  predicate Admin(db: Tables, user: string) {
    OwnRole(db, GLOBAL, user) == Some(PLATFORM_ADMIN)
  }

  predicate GroupGives(db: Tables, project: string, group: string, min: string) {
    var key := RoleKey(project, "group", group);
    key in db.roles && RoleLevel(db.roles[key]) >= RoleLevel(min)
  }

  ghost predicate ClaimGives(db: Tables, project: string, claim: string, min: string) {
    exists g | g in db.groups :: db.groups[g].oidcClaim == Some(claim) && GroupGives(db, project, g, min)
  }

  ghost predicate SomeClaimGives(db: Tables, project: string, claims: seq<string>, min: string) {
    exists c | c in claims :: ClaimGives(db, project, c, min)
  }

  /** The claim has a group, and every group with the claim gives the role. */
  ghost predicate ClaimMustGive(db: Tables, project: string, claim: string, min: string) {
    && (exists g :: g in db.groups && db.groups[g].oidcClaim == Some(claim))
    && (forall g | g in db.groups && db.groups[g].oidcClaim == Some(claim) :: GroupGives(db, project, g, min))
  }

  ghost predicate SomeClaimMustGive(db: Tables, project: string, claims: seq<string>, min: string) {
    exists c | c in claims :: ClaimMustGive(db, project, c, min)
  }

  /** It does not matter which of the groups that share a claim is found. */
  ghost predicate Definite(db: Tables, project: string, session: Session, min: string) {
    || Admin(db, session.userId) || OwnRole(db, project, session.userId).Some?
    || (SomeClaimGives(db, project, session.groups, min) ==> SomeClaimMustGive(db, project, session.groups, min))
  }

  /** Platform administrators may do everything; else the own role decides, and without one the groups. */
  ghost predicate Granted(db: Tables, project: string, session: Session, min: string) {
    || Admin(db, session.userId)
    || match OwnRole(db, project, session.userId)
       case Some(role) => RoleLevel(role) >= RoleLevel(min)
       case None => SomeClaimGives(db, project, session.groups, min)
  }

  // ---------------------------------------------------------------- the searches

  lemma {:induction false} MakesAdminFinds(rows: seq<RoleRow>, user: string)
    ensures MakesAdmin(rows, user) <==>
            exists r | r in rows :: r.role == PLATFORM_ADMIN && r.key.subjectType == "user" && r.key.subjectId == user
  {
    if rows != [] {
      MakesAdminFinds(rows[1..], user);
      assert forall r :: r in rows <==> r == rows[0] || r in rows[1..];
    }
  }

  lemma {:induction false} GivesGroupFinds(rows: seq<RoleRow>, group: string, min: string)
    ensures GivesGroup(rows, group, min) <==>
            exists r | r in rows :: r.key.subjectType == "group" && r.key.subjectId == group
              && RoleLevel(r.role) >= RoleLevel(min)
  {
    if rows != [] {
      GivesGroupFinds(rows[1..], group, min);
      assert forall r :: r in rows <==> r == rows[0] || r in rows[1..];
    }
  }

  predicate Suffices(a: GroupAnswers, min: string) {
    && a.group.Found? && a.group.value.Some? && a.roles.Found?
    && GivesGroup(a.roles.value, a.group.value.value, min)
  }

  lemma {:induction false} SomeGroupFinds(groups: seq<GroupAnswers>, min: string)
    ensures SomeGroupSuffices(groups, min) <==> exists i | 0 <= i < |groups| :: Suffices(groups[i], min)
  {
    if groups != [] {
      SomeGroupFinds(groups[1..], min);
      assert forall i | 1 <= i < |groups| :: groups[i] == groups[1..][i - 1];
      if SomeGroupSuffices(groups[1..], min) {
        var i :| 0 <= i < |groups[1..]| && Suffices(groups[1..][i], min);
        assert Suffices(groups[i + 1], min);
      }
    }
  }

  lemma AdminIsFound(rows: seq<RoleRow>, db: Tables, user: string)
    requires ListsRoles(rows, db, GLOBAL)
    ensures MakesAdmin(rows, user) <==> Admin(db, user)
  {
    MakesAdminFinds(rows, user);
    var key := OwnKey(GLOBAL, user);
    if MakesAdmin(rows, user) {
      var r :| r in rows && r.role == PLATFORM_ADMIN && r.key.subjectType == "user" && r.key.subjectId == user;
      assert r.key == key;
    }
    if Admin(db, user) {
      assert RoleRow(key, db.roles[key]) in rows;
    }
  }

  lemma GroupRoleIsFound(rows: seq<RoleRow>, db: Tables, project: string, group: string, min: string)
    requires ListsRoles(rows, db, project)
    ensures GivesGroup(rows, group, min) <==> GroupGives(db, project, group, min)
  {
    GivesGroupFinds(rows, group, min);
    var key := RoleKey(project, "group", group);
    if GivesGroup(rows, group, min) {
      var r :| r in rows && r.key.subjectType == "group" && r.key.subjectId == group
        && RoleLevel(r.role) >= RoleLevel(min);
      assert r.key == key;
    }
    if GroupGives(db, project, group, min) {
      assert RoleRow(key, db.roles[key]) in rows;
    }
  }

  /** A found group gives the role, by the rows of the store. */
  predicate FoundGroupGives(a: GroupAnswers, db: Tables, project: string, min: string) {
    Whole(a) && a.group.value.Some? && GroupGives(db, project, a.group.value.value, min)
  }

  lemma SufficesIsGiven(a: GroupAnswers, db: Tables, project: string, claim: string, min: string)
    requires AnswersClaim(a, db, project, claim)
    ensures Suffices(a, min) <==> FoundGroupGives(a, db, project, min)
    ensures Suffices(a, min) ==> ClaimGives(db, project, claim, min)
    ensures Whole(a) && ClaimMustGive(db, project, claim, min) ==> Suffices(a, min)
  {
    if Whole(a) && a.group.value.Some? {
      GroupRoleIsFound(a.roles.value, db, project, a.group.value.value, min);
    }
  }

  lemma GroupsAreJudged(answers: Answers, db: Tables, project: string, session: Session, min: string)
    requires AnswersFrom(answers, db, project, session)
    ensures SomeGroupSuffices(answers.groups, min) <==>
            exists i :: 0 <= i < |answers.groups| && FoundGroupGives(answers.groups[i], db, project, min)
    ensures SomeGroupSuffices(answers.groups, min) ==> SomeClaimGives(db, project, session.groups, min)
    ensures (forall a | a in answers.groups :: Whole(a)) && SomeClaimMustGive(db, project, session.groups, min) ==>
              SomeGroupSuffices(answers.groups, min)
  {
    SomeGroupFinds(answers.groups, min);
    forall i | 0 <= i < |session.groups|
      ensures Suffices(answers.groups[i], min) <==> FoundGroupGives(answers.groups[i], db, project, min)
      ensures Suffices(answers.groups[i], min) ==> ClaimGives(db, project, session.groups[i], min)
      ensures Whole(answers.groups[i]) && ClaimMustGive(db, project, session.groups[i], min) ==>
                Suffices(answers.groups[i], min)
    {
      SufficesIsGiven(answers.groups[i], db, project, session.groups[i], min);
    }
    if SomeClaimMustGive(db, project, session.groups, min) {
      var c :| c in session.groups && ClaimMustGive(db, project, c, min);
      var i :| 0 <= i < |session.groups| && session.groups[i] == c;
      assert answers.groups[i] in answers.groups;
    }
  }

  // ---------------------------------------------------------------- the decision meets the specification

  lemma DefiniteIsSpecified(db: Tables, project: string, session: Session, answers: Answers, min: string)
    requires Definite(db, project, session, min) && AnswersFrom(answers, db, project, session) && NothingFailed(answers)
    ensures HasSufficientRole(session, answers, min) <==> Granted(db, project, session, min)
  {
    AdminIsFound(answers.global.value, db, session.userId);
    GroupsAreJudged(answers, db, project, session, min);
  }

  /** Every table has a listing. */
  lemma {:induction false} SomeListing(db: Tables, project: string, keys: set<RoleKey>) returns (rows: seq<RoleRow>)
    requires keys <= db.roles.Keys
    ensures forall r | r in rows :: r.key in keys && r.key.projectId == project && r.role == db.roles[r.key]
    ensures forall k | k in keys && k.projectId == project :: RoleRow(k, db.roles[k]) in rows
  {
    if keys == {} {
      rows := [];
    } else {
      var k :| k in keys;
      rows := SomeListing(db, project, keys - {k});
      if k.projectId == project {
        rows := rows + [RoleRow(k, db.roles[k])];
      }
    }
  }

  /** The answer for a claim with the group that gives least, if there is a choice. */
  lemma LeastAnswer(
    db: Tables, project: string, claim: string, min: string, rows: seq<RoleRow>) returns (a: GroupAnswers)
    requires ListsRoles(rows, db, project) && !ClaimMustGive(db, project, claim, min)
    ensures Whole(a) && AnswersClaim(a, db, project, claim) && !FoundGroupGives(a, db, project, min)
  {
    if g :| g in db.groups && db.groups[g].oidcClaim == Some(claim) && !GroupGives(db, project, g, min) {
      a := GroupAnswers(Found(Some(g)), Found(rows));
    } else {
      a := GroupAnswers(Found(None), Found(rows));
    }
  }

  lemma {:induction false} LeastAnswers(
    db: Tables, project: string, claims: seq<string>, min: string, rows: seq<RoleRow>)
    returns (groups: seq<GroupAnswers>)
    requires ListsRoles(rows, db, project) && !SomeClaimMustGive(db, project, claims, min)
    ensures |groups| == |claims|
    ensures forall i | 0 <= i < |claims| ::
              && Whole(groups[i]) && AnswersClaim(groups[i], db, project, claims[i])
              && !FoundGroupGives(groups[i], db, project, min)
    decreases |claims|
  {
    if claims == [] {
      groups := [];
    } else {
      var n := |claims| - 1;
      assert claims[n] in claims && forall c | c in claims[..n] :: c in claims;
      groups := LeastAnswers(db, project, claims[..n], min, rows);
      var last := LeastAnswer(db, project, claims[n], min, rows);
      groups := groups + [last];
    }
  }

  /** Where it matters which group is found, some faultless answers make the decision miss the specification. */
  lemma IndefiniteMisses(db: Tables, project: string, session: Session, min: string) returns (answers: Answers)
    requires !Definite(db, project, session, min)
    ensures AnswersFrom(answers, db, project, session) && NothingFailed(answers)
    ensures !HasSufficientRole(session, answers, min) && Granted(db, project, session, min)
  {
    var global := SomeListing(db, GLOBAL, db.roles.Keys);
    var rows := SomeListing(db, project, db.roles.Keys);
    var groups := LeastAnswers(db, project, session.groups, min, rows);
    answers := Answers(Found(global), Found(None), groups);
    AdminIsFound(global, db, session.userId);
    GroupsAreJudged(answers, db, project, session, min);
  }

  /**
   * When no query fails: the decision is the specified one, whichever groups are found and in whatever
   * order the rows come, if and only if the specification does not hang on the choice of a group.
   */
  lemma DecisionIsSpecifiedIff(db: Tables, project: string, session: Session, min: string)
    ensures (forall answers | AnswersFrom(answers, db, project, session) && NothingFailed(answers) ::
               HasSufficientRole(session, answers, min) <==> Granted(db, project, session, min))
            <==> Definite(db, project, session, min)
  {
    if Definite(db, project, session, min) {
      forall answers | AnswersFrom(answers, db, project, session) && NothingFailed(answers)
        ensures HasSufficientRole(session, answers, min) <==> Granted(db, project, session, min)
      {
        DefiniteIsSpecified(db, project, session, answers, min);
      }
    } else {
      var answers := IndefiniteMisses(db, project, session, min);
    }
  }

  lemma UniqueIsDefinite(db: Tables, project: string, session: Session, min: string)
    requires ClaimsUnique(db)
    ensures Definite(db, project, session, min)
  {
    if SomeClaimGives(db, project, session.groups, min) {
      var c :| c in session.groups && ClaimGives(db, project, c, min);
      assert ClaimMustGive(db, project, c, min);
    }
  }

  /** In every history whose groups come from non-empty claims, the decision is the specified one. */
  lemma DecisionIsSpecified(
    dbs: seq<Tables>, changes: seq<Identity.Change>, j: nat,
    project: string, session: Session, answers: Answers, min: string)
    requires Identity.History(dbs, changes) && j < |dbs| && dbs[0].groups == map[]
    requires forall c | c in changes :: Identity.MakesGroupsFromClaims(c)
    requires AnswersFrom(answers, dbs[j], project, session) && NothingFailed(answers)
    ensures HasSufficientRole(session, answers, min) <==> Granted(dbs[j], project, session, min)
  {
    Identity.ClaimsStayUnique(dbs, changes, j);
    UniqueIsDefinite(dbs[j], project, session, min);
    DefiniteIsSpecified(dbs[j], project, session, answers, min);
  }

  function WithoutOwnRole(db: Tables, project: string, user: string): Tables {
    db.(roles := db.roles - {OwnKey(project, user)})
  }

  /** The tables as the decision sees them: a failed query for the own role passes for having none. */
  function SeenBy(db: Tables, project: string, session: Session, answers: Answers): Tables {
    if answers.own == Failed && !Admin(db, session.userId) then WithoutOwnRole(db, project, session.userId) else db
  }

  lemma WithoutOwnRoleKeepsGroups(db: Tables, project: string, user: string, claims: seq<string>, min: string)
    ensures SomeClaimGives(WithoutOwnRole(db, project, user), project, claims, min) <==>
            SomeClaimGives(db, project, claims, min)
  {
    var d := WithoutOwnRole(db, project, user);
    assert forall g :: GroupGives(d, project, g, min) <==> GroupGives(db, project, g, min);
    assert forall c :: ClaimGives(d, project, c, min) <==> ClaimGives(db, project, c, min);
  }

  /** Whichever queries fail, what is granted is granted by the rows that were seen. */
  lemma FailuresNeverInvent(db: Tables, project: string, session: Session, answers: Answers, min: string)
    requires AnswersFrom(answers, db, project, session) && HasSufficientRole(session, answers, min)
    ensures Granted(SeenBy(db, project, session, answers), project, session, min)
  {
    if answers.global.Found? {
      AdminIsFound(answers.global.value, db, session.userId);
    }
    GroupsAreJudged(answers, db, project, session, min);
    WithoutOwnRoleKeepsGroups(db, project, session.userId, session.groups, min);
  }

  /**
   * Whichever queries fail: the decision grants what the specification denies exactly when the query for
   * the own role of a user without platform rights failed, that role would not do, and a group that was
   * found for some claim gives the role.
   */
  lemma WidenedIff(db: Tables, project: string, session: Session, answers: Answers, min: string)
    requires AnswersFrom(answers, db, project, session)
    ensures HasSufficientRole(session, answers, min) && !Granted(db, project, session, min) <==>
            && answers.own == Failed && !Admin(db, session.userId)
            && OwnRole(db, project, session.userId).Some?
            && RoleLevel(OwnRole(db, project, session.userId).value) < RoleLevel(min)
            && exists i :: 0 <= i < |answers.groups| && FoundGroupGives(answers.groups[i], db, project, min)
  {
    if answers.global.Found? {
      AdminIsFound(answers.global.value, db, session.userId);
    }
    GroupsAreJudged(answers, db, project, session, min);
  }

  lemma GroupDemandsLess(groups: seq<GroupAnswers>, less: string, more: string)
    requires RoleLevel(less) <= RoleLevel(more) && SomeGroupSuffices(groups, more)
    ensures SomeGroupSuffices(groups, less)
  {
    SomeGroupFinds(groups, more);
    SomeGroupFinds(groups, less);
    var i :| 0 <= i < |groups| && Suffices(groups[i], more);
    GivesGroupFinds(groups[i].roles.value, groups[i].group.value.value, more);
    GivesGroupFinds(groups[i].roles.value, groups[i].group.value.value, less);
    assert Suffices(groups[i], less);
  }

  /** Who may do what needs a role may do what needs a lesser one, whatever the store answers. */
  lemma LesserRolesAreGrantedToo(session: Session, answers: Answers, less: string, more: string)
    requires RoleLevel(less) <= RoleLevel(more) && HasSufficientRole(session, answers, more)
    ensures HasSufficientRole(session, answers, less)
  {
    if SomeGroupSuffices(answers.groups, more) {
      GroupDemandsLess(answers.groups, less, more);
    }
  }

  // ---------------------------------------------------------------- a role that was set

  /** An operation that sets or removes the role, or removes its project. */
  predicate Touches(op: Op, key: RoleKey) {
    match op
    case SetProjectRole(k, _) => k == key
    case RemoveProjectRole(k) => k == key
    case DeleteProject(id) => id == key.projectId
    case _ => false
  }

  lemma UntouchedRoleStays(db: Tables, op: Op, key: RoleKey)
    requires !Touches(op, key)
    ensures key in Exec(db, op).0.roles <==> key in db.roles
    ensures key in db.roles ==> Exec(db, op).0.roles[key] == db.roles[key]
  {
    if op.InsertCostRecords? {
      BatchIsAllOrNothing(db, op.batch);
    }
  }

  lemma {:induction false} UntouchedRoleStaysThrough(db: Tables, ops: seq<Op>, key: RoleKey)
    requires forall op | op in ops :: !Touches(op, key)
    ensures key in ExecAll(db, ops).roles <==> key in db.roles
    ensures key in db.roles ==> ExecAll(db, ops).roles[key] == db.roles[key]
  {
    if ops != [] {
      var n := |ops| - 1;
      assert ops[n] in ops;
      UntouchedRoleStaysThrough(db, ops[..n], key);
      UntouchedRoleStays(ExecAll(db, ops[..n]), ops[n], key);
    }
  }

  /**
   * After SetProjectRole went through, what a user without platform rights may do on the project depends
   * on this role alone, whatever the user's groups, until it is replaced, removed or goes with its project.
   */
  lemma OwnRoleDecides(
    db: Tables, project: string, session: Session, role: string, ops: seq<Op>, answers: Answers, min: string)
    requires Exec(db, SetProjectRole(OwnKey(project, session.userId), role)).1
    requires var after := ExecAll(Exec(db, SetProjectRole(OwnKey(project, session.userId), role)).0, ops);
             AnswersFrom(answers, after, project, session) && !Admin(after, session.userId)
    requires forall op | op in ops :: !Touches(op, OwnKey(project, session.userId))
    requires answers.own.Found?
    ensures HasSufficientRole(session, answers, min) <==> RoleLevel(role) >= RoleLevel(min)
  {
    var key := OwnKey(project, session.userId);
    var before := Exec(db, SetProjectRole(key, role)).0;
    UntouchedRoleStaysThrough(before, ops, key);
    var after := ExecAll(before, ops);
    assert OwnRole(after, project, session.userId) == Some(role);
    if answers.global.Found? {
      AdminIsFound(answers.global.value, after, session.userId);
    }
  }

  /** The project _global is an ordinary row: as long as there is none, nobody has platform rights. */
  lemma NoAdminWithoutGlobalProject(db: Tables, session: Session, answers: Answers, project: string)
    requires Consistent(db) && GLOBAL !in db.projects && AnswersFrom(answers, db, project, session)
    ensures !IsPlatformAdmin(answers.global, session.userId)
  {
    if answers.global.Found? {
      AdminIsFound(answers.global.value, db, session.userId);
    }
  }

  // ---------------------------------------------------------------- a decision that a failure widens

  lemma OneMoreOp(db: Tables, ops: seq<Op>, op: Op)
    ensures ExecAll(db, ops + [op]) == Exec(ExecAll(db, ops), op).0
  {
    assert (ops + [op])[..|ops|] == ops;
  }

  /** A user who may view a project, and a group that administers it. */
  lemma ViewerAndGroup(own: RoleKey, group: RoleKey) returns (ops: seq<Op>)
    requires own == OwnKey("p", "u") && group == RoleKey("p", "group", "g")
    ensures ExecAll(EMPTY, ops).roles == map[own := "viewer", group := "admin"]
    ensures ExecAll(EMPTY, ops).groups == map["g" := Group("dev", Some("dev"))]
  {
    var project, dev := CreateProject("p", "p"), Op.CreateGroup("g", Group("dev", Some("dev")));
    OneMoreOp(EMPTY, [], project);
    OneMoreOp(EMPTY, [] + [project], dev);
    OneMoreOp(EMPTY, [] + [project] + [dev], SetProjectRole(own, "viewer"));
    ops := [] + [project] + [dev] + [SetProjectRole(own, "viewer")];
    assert ExecAll(EMPTY, ops).roles == map[own := "viewer"] && "p" in ExecAll(EMPTY, ops).projects;
    OneMoreOp(EMPTY, ops, SetProjectRole(group, "admin"));
    ops := ops + [SetProjectRole(group, "admin")];
  }

  /** When the query for the viewer's own role fails, the role of the viewer's group counts. */
  lemma WideningHappens() returns (ops: seq<Op>, session: Session, answers: Answers)
    ensures AnswersFrom(answers, ExecAll(EMPTY, ops), "p", session)
    ensures HasSufficientRole(session, answers, "admin")
    ensures !Granted(ExecAll(EMPTY, ops), "p", session, "admin")
  {
    var own, group := OwnKey("p", "u"), RoleKey("p", "group", "g");
    var rows := [RoleRow(own, "viewer"), RoleRow(group, "admin")];
    ops := ViewerAndGroup(own, group);
    session := Session("u", ["dev"]);
    answers := Answers(Found([]), Failed, [GroupAnswers(Found(Some("g")), Found(rows))]);
    WidenedFor(ExecAll(EMPTY, ops), session, answers, rows);
  }

  lemma WidenedFor(db: Tables, session: Session, answers: Answers, rows: seq<RoleRow>)
    requires var own, group := OwnKey("p", "u"), RoleKey("p", "group", "g");
             && db.roles == map[own := "viewer", group := "admin"]
             && rows == [RoleRow(own, "viewer"), RoleRow(group, "admin")]
    requires db.groups == map["g" := Group("dev", Some("dev"))] && session == Session("u", ["dev"])
    requires answers == Answers(Found([]), Failed, [GroupAnswers(Found(Some("g")), Found(rows))])
    ensures AnswersFrom(answers, db, "p", session) && HasSufficientRole(session, answers, "admin")
    ensures !Granted(db, "p", session, "admin")
  {
    assert rows[0] in rows && rows[1] in rows;
    GivesGroupFinds(rows, "g", "admin");
    SomeGroupFinds(answers.groups, "admin");
    assert Suffices(answers.groups[0], "admin");
  }

  // ---------------------------------------------------------------- the order of the roles

  /** From the least to the greatest. */
  ghost predicate AtMost(less: string, more: string) {
    || (less == "viewer" && more in ["viewer", "editor", "admin", "platform-admin"])
    || (less == "editor" && more in ["editor", "admin", "platform-admin"])
    || (less == "admin" && more in ["admin", "platform-admin"])
    || (less == "platform-admin" && more == "platform-admin")
  }

  predicate IsRole(role: string) {
    role == "viewer" || role == "editor" || role == "admin" || role == "platform-admin"
  }

  /** A listed requirement is met by the listed roles from it on, and by no other role. */
  lemma LevelsFollowTheOrder(own: string, required: string)
    requires IsRole(required)
    ensures RoleLevel(own) >= RoleLevel(required) <==> AtMost(required, own)
  {
    assert AtMost(required, own) ==> IsRole(own);
  }

  /** Everybody meets a requirement that is no role. */
  lemma NoRoleIsNoRequirement(own: string, required: string)
    requires !IsRole(required)
    ensures RoleLevel(own) >= RoleLevel(required)
  {
  }

  /** Without platform rights, the own role meets a requirement exactly when the requirement does not come after it. */
  lemma OwnRoleMeetsUpToItself(
    db: Tables, project: string, session: Session, answers: Answers, own: string, required: string)
    requires AnswersFrom(answers, db, project, session) && !Admin(db, session.userId)
    requires answers.own == Found(Some(own)) && IsRole(required)
    ensures HasSufficientRole(session, answers, required) <==> AtMost(required, own)
  {
    LevelsFollowTheOrder(own, required);
    if answers.global.Found? {
      AdminIsFound(answers.global.value, db, session.userId);
    }
  }

  /** Without platform rights and an own role, the same holds of the roles of the groups that were found. */
  lemma GroupRolesMeetUpToThemselves(db: Tables, project: string, session: Session, answers: Answers, required: string)
    requires AnswersFrom(answers, db, project, session) && !Admin(db, session.userId)
    requires answers.own == Found(None) && IsRole(required)
    ensures HasSufficientRole(session, answers, required) <==>
            exists i | 0 <= i < |answers.groups| :: FoundGroupHas(answers.groups[i], db, project, required)
  {
    if answers.global.Found? {
      AdminIsFound(answers.global.value, db, session.userId);
    }
    GroupsAreJudged(answers, db, project, session, required);
    forall a ensures FoundGroupGives(a, db, project, required) <==> FoundGroupHas(a, db, project, required) {
      if Whole(a) && a.group.value.Some? && RoleKey(project, "group", a.group.value.value) in db.roles {
        LevelsFollowTheOrder(db.roles[RoleKey(project, "group", a.group.value.value)], required);
      }
    }
  }

  /** The group that was found has a role on the project that does not come before the requirement. */
  ghost predicate FoundGroupHas(a: GroupAnswers, db: Tables, project: string, required: string) {
    && a.group.Found? && a.group.value.Some? && a.roles.Found?
    && var key := RoleKey(project, "group", a.group.value.value);
    key in db.roles && AtMost(required, db.roles[key])
  }

  /** Platform rights come from the role platform-admin of a user on the project _global, and from nothing else. */
  lemma PlatformRightsAreOnGlobal(db: Tables, project: string, session: Session, answers: Answers)
    requires AnswersFrom(answers, db, project, session) && answers.global.Found?
    ensures IsPlatformAdmin(answers.global, session.userId) <==>
            var key := RoleKey("_global", "user", session.userId); key in db.roles && db.roles[key] == "platform-admin"
    ensures IsPlatformAdmin(answers.global, session.userId) ==>
              forall required :: HasSufficientRole(session, answers, required)
  {
    AdminIsFound(answers.global.value, db, session.userId);
  }
}
