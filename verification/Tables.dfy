/**
 * The relational schema of migrations/000001_init.up.sql as maps, with the effect of every statement
 * of internal/store/sql.go on them: keys, unique columns, foreign keys, cascades and set-null.
 */
module Tables {
  import opened Basics
  import opened Model

  datatype CostSource = CostSource(
    projectId: string, kind: string, name: string, enabled: bool, lastCollectedAt: Option<Time>)

  datatype User = User(email: string, displayName: string, oidcSubject: Option<string>)

  datatype Group = Group(name: string, oidcClaim: Option<string>)

  datatype RoleKey = RoleKey(projectId: string, subjectType: string, subjectId: string)

  datatype Budget = Budget(projectId: string, costSourceId: Option<string>, monthlyLimit: real, warnThreshold: real)

  /** Rows by primary key; of a project only the unique name is kept. */
  datatype Tables = Tables(
    projects: map<string, string>,
    sources: map<string, CostSource>,
    users: map<string, User>,
    groups: map<string, Group>,
    members: set<(string, string)>,
    roles: map<RoleKey, string>,
    budgets: map<string, Budget>,
    records: map<string, CostRecord>)

  const EMPTY := Tables(map[], map[], map[], map[], {}, map[], map[], map[])

  // ---------------------------------------------------------------- constraints

  ghost predicate ProjectNamesUnique(projects: map<string, string>) {
    forall a, b | a in projects && b in projects && projects[a] == projects[b] :: a == b
  }

  ghost predicate UserColumnsUnique(users: map<string, User>) {
    && (forall a, b | a in users && b in users && users[a].email == users[b].email :: a == b)
    && (forall a, b | a in users && b in users && users[a].oidcSubject.Some?
                      && users[a].oidcSubject == users[b].oidcSubject :: a == b)
  }

  ghost predicate GroupNamesUnique(groups: map<string, Group>) {
    forall a, b | a in groups && b in groups && groups[a].name == groups[b].name :: a == b
  }

  /** Not a constraint of the schema: no two groups carry the same claim. */
  ghost predicate ClaimsUnique(db: Tables) {
    forall g, h | g in db.groups && h in db.groups && db.groups[g].oidcClaim.Some?
                  && db.groups[g].oidcClaim == db.groups[h].oidcClaim :: g == h
  }

  ghost predicate UniqueColumns(db: Tables) {
    ProjectNamesUnique(db.projects) && UserColumnsUnique(db.users) && GroupNamesUnique(db.groups)
  }

  ghost predicate References(db: Tables) {
    && (forall s | s in db.sources :: db.sources[s].projectId in db.projects)
    && (forall m | m in db.members :: m.0 in db.groups && m.1 in db.users)
    && (forall k | k in db.roles :: k.projectId in db.projects)
    && (forall b | b in db.budgets ::
          && db.budgets[b].projectId in db.projects
          && (db.budgets[b].costSourceId.Some? ==> db.budgets[b].costSourceId.value in db.sources))
    && (forall r | r in db.records ::
          && db.records[r].id == r
          && db.records[r].projectId in db.projects
          && db.records[r].costSourceId in db.sources)
  }

  ghost predicate Consistent(db: Tables) {
    UniqueColumns(db) && References(db)
  }

  // ---------------------------------------------------------------- statements

  datatype Op =
    | CreateProject(id: string, name: string)
    | UpdateProject(id: string, name: string)
    | DeleteProject(id: string)
    | CreateCostSource(id: string, source: CostSource)
    | UpdateCostSource(id: string, name: string, enabled: bool)
    | DeleteCostSource(id: string)
    | UpdateCollectedAt(id: string, at: Time)
    | CreateUser(id: string, user: User)
    | CreateGroup(id: string, group: Group)
    | AddGroupMember(groupId: string, userId: string)
    | RemoveGroupMember(groupId: string, userId: string)
    | SetProjectRole(key: RoleKey, role: string)
    | RemoveProjectRole(key: RoleKey)
    | CreateBudget(id: string, budget: Budget)
    | UpdateBudget(id: string, monthlyLimit: real, warnThreshold: real)
    | DeleteBudget(id: string)
    | InsertCostRecords(batch: seq<CostRecord>)

  /** Dropping sources takes their records along and clears them from budgets. */
  function WithoutSources(db: Tables, gone: set<string>): Tables {
    db.(sources := db.sources - gone,
        budgets := map b | b in db.budgets ::
                     if db.budgets[b].costSourceId.Some? && db.budgets[b].costSourceId.value in gone
                     then db.budgets[b].(costSourceId := None) else db.budgets[b],
        records := map r | r in db.records && db.records[r].costSourceId !in gone :: db.records[r])
  }

  function SourcesOf(db: Tables, project: string): set<string> {
    set s | s in db.sources && db.sources[s].projectId == project
  }

  /** Dropping a project takes its sources, roles, budgets and records along. */
  function WithoutProject(db: Tables, project: string): Tables {
    var d := WithoutSources(db, SourcesOf(db, project));
    d.(projects := d.projects - {project},
       roles := map k | k in d.roles && k.projectId != project :: d.roles[k],
       budgets := map b | b in d.budgets && d.budgets[b].projectId != project :: d.budgets[b],
       records := map r | r in d.records && d.records[r].projectId != project :: d.records[r])
  }

  /** Moving a watermark; without the row nothing is updated. */
  function WithCollectedAt(db: Tables, id: string, at: Time): Tables {
    if id !in db.sources then db
    else db.(sources := db.sources[id := db.sources[id].(lastCollectedAt := Some(at))])
  }

  function InsertOne(db: Tables, r: CostRecord): Option<Tables> {
    if r.id in db.records || r.projectId !in db.projects || r.costSourceId !in db.sources then None
    else Some(db.(records := db.records[r.id := r]))
  }

  /** The rows of a batch one by one; the first violation fails the batch. */
  function InsertAll(db: Tables, batch: seq<CostRecord>): Option<Tables> {
    if batch == [] then Some(db)
    else
      match InsertAll(db, batch[..|batch| - 1])
      case None => None
      case Some(d) => InsertOne(d, batch[|batch| - 1])
  }

  function UserCreated(db: Tables, id: string, user: User): (Tables, bool) {
    if || id in db.users
       || (exists u | u in db.users :: db.users[u].email == user.email)
       || (user.oidcSubject.Some? && exists u | u in db.users :: db.users[u].oidcSubject == user.oidcSubject)
    then (db, false)
    else (db.(users := db.users[id := user]), true)
  }

  function GroupCreated(db: Tables, id: string, group: Group): (Tables, bool) {
    if id in db.groups || (exists g | g in db.groups :: db.groups[g].name == group.name) then (db, false)
    else (db.(groups := db.groups[id := group]), true)
  }

  function MemberAdded(db: Tables, groupId: string, userId: string): (Tables, bool) {
    if groupId !in db.groups || userId !in db.users then (db, false)
    else (db.(members := db.members + {(groupId, userId)}), true)
  }

  predicate NameFree(db: Tables, id: string, name: string) {
    forall p | p in db.projects && p != id :: db.projects[p] != name
  }

  /** The tables after a statement, and whether it went through; a failed statement changes nothing. */
  function Exec(db: Tables, op: Op): (Tables, bool) {
    match op
    case CreateProject(id, name) =>
      if id in db.projects || !NameFree(db, id, name) then (db, false)
      else (db.(projects := db.projects[id := name]), true)
    case UpdateProject(id, name) =>
      if id !in db.projects then (db, true)
      else if !NameFree(db, id, name) then (db, false)
      else (db.(projects := db.projects[id := name]), true)
    case DeleteProject(id) => (WithoutProject(db, id), true)
    case CreateCostSource(id, source) =>
      if id in db.sources || source.projectId !in db.projects then (db, false)
      else (db.(sources := db.sources[id := source.(lastCollectedAt := None)]), true)
    case UpdateCostSource(id, name, enabled) =>
      if id !in db.sources then (db, true)
      else (db.(sources := db.sources[id := db.sources[id].(name := name, enabled := enabled)]), true)
    case DeleteCostSource(id) => (WithoutSources(db, {id}), true)
    case UpdateCollectedAt(id, at) => (WithCollectedAt(db, id, at), true)
    case CreateUser(id, user) => UserCreated(db, id, user)
    case CreateGroup(id, group) => GroupCreated(db, id, group)
    case AddGroupMember(groupId, userId) => MemberAdded(db, groupId, userId)
    case RemoveGroupMember(groupId, userId) => (db.(members := db.members - {(groupId, userId)}), true)
    case SetProjectRole(key, role) =>
      if key.projectId !in db.projects then (db, false)
      else (db.(roles := db.roles[key := role]), true)
    case RemoveProjectRole(key) => (db.(roles := db.roles - {key}), true)
    case CreateBudget(id, budget) =>
      if || id in db.budgets || budget.projectId !in db.projects
         || (budget.costSourceId.Some? && budget.costSourceId.value !in db.sources)
      then (db, false)
      else (db.(budgets := db.budgets[id := budget]), true)
    case UpdateBudget(id, monthlyLimit, warnThreshold) =>
      if id !in db.budgets then (db, true)
      else
        var changed := db.budgets[id].(monthlyLimit := monthlyLimit, warnThreshold := warnThreshold);
        (db.(budgets := db.budgets[id := changed]), true)
    case DeleteBudget(id) => (db.(budgets := db.budgets - {id}), true)
    case InsertCostRecords(batch) =>
      match InsertAll(db, batch)
      case None => (db, false)
      case Some(d) => (d, true)
  }

  function ExecAll(db: Tables, ops: seq<Op>): Tables {
    if ops == [] then db else Exec(ExecAll(db, ops[..|ops| - 1]), ops[|ops| - 1]).0
  }

  // ---------------------------------------------------------------- integrity

  lemma {:induction false} InsertAllKeepsConsistent(db: Tables, batch: seq<CostRecord>)
    requires Consistent(db)
    ensures InsertAll(db, batch).Some? ==> Consistent(InsertAll(db, batch).value)
  {
    if batch != [] {
      InsertAllKeepsConsistent(db, batch[..|batch| - 1]);
    }
  }

  lemma WithoutSourcesIsConsistent(db: Tables, gone: set<string>)
    requires Consistent(db)
    ensures Consistent(WithoutSources(db, gone))
  {
  }

  /** Without its sources a project is referred to by its roles, budgets and stray records only. */
  lemma WithoutProjectIsConsistent(db: Tables, project: string)
    requires Consistent(db)
    ensures Consistent(WithoutProject(db, project))
  {
    var d, e := WithoutSources(db, SourcesOf(db, project)), WithoutProject(db, project);
    WithoutSourcesIsConsistent(db, SourcesOf(db, project));
    assert forall s | s in d.sources :: d.sources[s].projectId != project;
    RestIsConsistent(d, e, project);
  }

  lemma RestIsConsistent(d: Tables, e: Tables, project: string)
    requires Consistent(d) && forall s | s in d.sources :: d.sources[s].projectId != project
    requires e.projects == d.projects - {project}
    requires e.sources == d.sources && e.users == d.users && e.groups == d.groups && e.members == d.members
    requires forall k | k in e.roles :: k in d.roles && k.projectId != project
    requires forall b | b in e.budgets ::
               b in d.budgets && e.budgets[b] == d.budgets[b] && d.budgets[b].projectId != project
    requires forall r | r in e.records ::
               r in d.records && e.records[r] == d.records[r] && d.records[r].projectId != project
    ensures Consistent(e)
  {
  }

  predicate TouchesOwners(op: Op) {
    op.CreateProject? || op.UpdateProject? || op.CreateCostSource? || op.UpdateCostSource? || op.UpdateCollectedAt?
    || op.CreateUser? || op.CreateGroup?
  }

  predicate TouchesDependents(op: Op) {
    op.AddGroupMember? || op.RemoveGroupMember? || op.SetProjectRole? || op.RemoveProjectRole?
  }

  predicate TouchesBudgets(op: Op) {
    op.CreateBudget? || op.UpdateBudget? || op.DeleteBudget?
  }

  lemma OwnersKeepReferences(db: Tables, op: Op)
    requires References(db) && TouchesOwners(op)
    ensures References(Exec(db, op).0)
  {
  }

  lemma DependentsKeepReferences(db: Tables, op: Op)
    requires References(db) && TouchesDependents(op)
    ensures References(Exec(db, op).0)
  {
  }

  lemma BudgetsKeepReferences(db: Tables, op: Op)
    requires References(db) && TouchesBudgets(op)
    ensures References(Exec(db, op).0)
  {
  }

  lemma OthersKeepReferences(db: Tables, op: Op)
    requires References(db) && (TouchesBudgets(op) || TouchesDependents(op))
    ensures References(Exec(db, op).0)
  {
    if TouchesBudgets(op) {
      BudgetsKeepReferences(db, op);
    } else {
      DependentsKeepReferences(db, op);
    }
  }

  lemma OwnersKeepUnique(db: Tables, op: Op)
    requires UniqueColumns(db) && TouchesOwners(op)
    ensures UniqueColumns(Exec(db, op).0)
  {
    match op
    case CreateProject(id, name) => NamedKeepsUnique(db, id, name);
    case UpdateProject(id, name) => NamedKeepsUnique(db, id, name);
    case CreateUser(id, user) => NewUserKeepsUnique(db, id, user);
    case CreateGroup(id, group) => NewGroupKeepsUnique(db, id, group);
    case _ =>
  }

  lemma NamedKeepsUnique(db: Tables, id: string, name: string)
    requires ProjectNamesUnique(db.projects)
    ensures NameFree(db, id, name) ==> ProjectNamesUnique(db.projects[id := name])
  {
  }

  lemma NewUserKeepsUnique(db: Tables, id: string, user: User)
    requires UniqueColumns(db)
    ensures UserColumnsUnique(UserCreated(db, id, user).0.users)
  {
  }

  lemma OthersKeepUnique(db: Tables, op: Op)
    requires TouchesBudgets(op) || TouchesDependents(op)
    ensures var d := Exec(db, op).0; d.projects == db.projects && d.users == db.users && d.groups == db.groups
  {
  }

  lemma ExecKeepsConsistent(db: Tables, op: Op)
    requires Consistent(db)
    ensures Consistent(Exec(db, op).0)
  {
    match op
    case DeleteProject(id) => WithoutProjectIsConsistent(db, id);
    case DeleteCostSource(id) => WithoutSourcesIsConsistent(db, {id});
    case InsertCostRecords(batch) => InsertAllKeepsConsistent(db, batch);
    case _ =>
      if TouchesOwners(op) {
        OwnersKeepReferences(db, op);
        OwnersKeepUnique(db, op);
      } else {
        OthersKeepReferences(db, op);
        OthersKeepUnique(db, op);
      }
  }

  lemma UserCreatedKeeps(db: Tables, id: string, user: User)
    requires Consistent(db)
    ensures Consistent(UserCreated(db, id, user).0)
  {
    NewUserKeepsUnique(db, id, user);
  }

  lemma NewGroupKeepsUnique(db: Tables, id: string, group: Group)
    requires GroupNamesUnique(db.groups)
    ensures GroupNamesUnique(GroupCreated(db, id, group).0.groups)
  {
  }

  lemma GroupCreatedKeeps(db: Tables, id: string, group: Group)
    requires Consistent(db)
    ensures Consistent(GroupCreated(db, id, group).0)
  {
    var d := GroupCreated(db, id, group).0;
    NewGroupKeepsUnique(db, id, group);
    assert UniqueColumns(d);
    assert forall m | m in d.members :: m in db.members && m.0 in d.groups && m.1 in d.users;
    assert References(d);
  }

  /** Every sequence of store operations keeps the keys unique and every reference resolved. */
  lemma {:induction false} StoreStaysConsistent(ops: seq<Op>)
    ensures Consistent(ExecAll(EMPTY, ops))
  {
    if ops != [] {
      StoreStaysConsistent(ops[..|ops| - 1]);
      ExecKeepsConsistent(ExecAll(EMPTY, ops[..|ops| - 1]), ops[|ops| - 1]);
    }
  }

  // ---------------------------------------------------------------- batches

  function Ids(batch: seq<CostRecord>): set<string> {
    set r | r in batch :: r.id
  }

  /** What the constraints ask of a batch, said of the batch as a whole. */
  ghost predicate Insertable(db: Tables, batch: seq<CostRecord>) {
    && (forall r | r in batch ::
          r.id !in db.records && r.projectId in db.projects && r.costSourceId in db.sources)
    && (forall i, j | 0 <= i < j < |batch| :: batch[i].id != batch[j].id)
  }

  /** Tables that differ by exactly the rows of a batch. */
  ghost predicate GrewBy(db: Tables, d: Tables, batch: seq<CostRecord>) {
    && d == db.(records := d.records)
    && d.records.Keys == db.records.Keys + Ids(batch)
    && (forall r | r in db.records :: d.records[r] == db.records[r])
    && (forall r | r in batch :: d.records[r.id] == r)
  }

  /**
   * A batch goes in exactly when all of its rows can; then it adds its rows and changes nothing else.
   */
  lemma {:induction false} BatchIsAllOrNothing(db: Tables, batch: seq<CostRecord>)
    ensures InsertAll(db, batch).Some? <==> Insertable(db, batch)
    ensures InsertAll(db, batch).Some? ==> GrewBy(db, InsertAll(db, batch).value, batch)
  {
    if batch != [] {
      var front, last := batch[..|batch| - 1], batch[|batch| - 1];
      assert batch == front + [last];
      BatchIsAllOrNothing(db, front);
      LastIsInsertable(db, front, last);
      if InsertAll(db, batch).Some? {
        GrewByLast(db, InsertAll(db, front).value, front, last);
      }
    }
  }

  lemma BatchIsExecuted(db: Tables, batch: seq<CostRecord>)
    ensures Exec(db, InsertCostRecords(batch))
         == match InsertAll(db, batch) case None => (db, false) case Some(d) => (d, true)
    ensures batch == [] ==> InsertAll(db, batch) == Some(db)
  {
  }

  lemma LastIsInsertable(db: Tables, front: seq<CostRecord>, last: CostRecord)
    ensures Insertable(db, front + [last]) <==>
            && Insertable(db, front)
            && last.id !in db.records.Keys + Ids(front) && last.projectId in db.projects
                  && last.costSourceId in db.sources
  {
    var batch := front + [last];
    assert forall r | r in batch :: r in front || r == last;
    if Insertable(db, batch) {
      forall r | r in front ensures r in batch && r.id != last.id {
        var i :| 0 <= i < |front| && front[i] == r;
        assert batch[i] == r && batch[|front|] == last;
      }
      forall i, j | 0 <= i < j < |front| ensures front[i].id != front[j].id {
        assert batch[i] == front[i] && batch[j] == front[j];
      }
      assert last in batch;
    }
    if Insertable(db, front) && last.id !in db.records.Keys + Ids(front) {
      forall i, j | 0 <= i < j < |batch| ensures batch[i].id != batch[j].id {
        assert batch[i] == front[i] && front[i] in front;
        if j == |front| {
          assert front[i].id in Ids(front);
        }
      }
    }
  }

  lemma GrewByLast(db: Tables, d: Tables, front: seq<CostRecord>, last: CostRecord)
    requires GrewBy(db, d, front) && InsertOne(d, last).Some?
    ensures GrewBy(db, InsertOne(d, last).value, front + [last])
  {
    var batch, e := front + [last], InsertOne(d, last).value;
    assert forall r :: r in batch <==> r in front || r == last;
    assert Ids(batch) == Ids(front) + {last.id};
    forall r | r in batch ensures e.records[r.id] == r {
      if r in front {
        assert r.id in Ids(front);
      }
    }
  }

  // ---------------------------------------------------------------- what a deletion takes and leaves

  /** Exactly the rows that fulfil a condition are left, as they were. */
  ghost predicate Left<K(!new), V>(before: map<K, V>, after: map<K, V>, stays: K -> bool) {
    forall k :: (k in after <==> k in before && stays(k)) && (k in after ==> after[k] == before[k])
  }

  /**
   * Deleting a project leaves exactly the other projects, the sources, roles, budgets and records of other
   * projects, and all users, groups and memberships.
   */
  lemma ProjectDeletionLeaves(db: Tables, id: string)
    requires Consistent(db)
    ensures var d := Exec(db, DeleteProject(id)).0;
            && Left(db.projects, d.projects, p => p != id)
            && Left(db.sources, d.sources, s => s in db.sources && db.sources[s].projectId != id)
            && Left(db.roles, d.roles, (k: RoleKey) => k.projectId != id)
            && d.users == db.users && d.groups == db.groups && d.members == db.members
            && RecordsLeft(db, d, id) && BudgetsLeft(db, d, id)
  {
    OwnersAreLeft(db, id);
    RecordsAreLeft(db, id);
    BudgetsAreLeft(db, id);
  }

  /** The records that are neither the project's nor of one of its sources. */
  ghost predicate RecordsLeft(db: Tables, d: Tables, id: string)
    requires References(db)
  {
    forall r :: && (r in d.records <==> r in db.records && db.records[r].projectId != id
                                        && db.sources[db.records[r].costSourceId].projectId != id)
                && (r in d.records ==> d.records[r] == db.records[r])
  }

  /** The budgets of other projects, without references to the project's sources. */
  ghost predicate BudgetsLeft(db: Tables, d: Tables, id: string) {
    forall b :: && (b in d.budgets <==> b in db.budgets && db.budgets[b].projectId != id)
                && (b in d.budgets ==> d.budgets[b] == Detached(db.budgets[b], SourcesOf(db, id)))
  }

  lemma OwnersAreLeft(db: Tables, id: string)
    ensures var d := WithoutProject(db, id);
            && Left(db.projects, d.projects, p => p != id)
            && Left(db.sources, d.sources, s => s in db.sources && db.sources[s].projectId != id)
            && Left(db.roles, d.roles, (k: RoleKey) => k.projectId != id)
  {
  }

  lemma RecordsAreLeft(db: Tables, id: string)
    requires References(db)
    ensures RecordsLeft(db, WithoutProject(db, id), id)
  {
    var d := WithoutSources(db, SourcesOf(db, id));
    assert forall r :: r in d.records <==>
        r in db.records && db.sources[db.records[r].costSourceId].projectId != id;
  }

  lemma BudgetsAreLeft(db: Tables, id: string)
    ensures BudgetsLeft(db, WithoutProject(db, id), id)
  {
    var d := WithoutSources(db, SourcesOf(db, id));
    assert forall b | b in db.budgets :: d.budgets[b] == Detached(db.budgets[b], SourcesOf(db, id));
  }

  /** A budget without the reference to a source that is gone. */
  function Detached(b: Budget, gone: set<string>): Budget {
    match b.costSourceId
    case None => b
    case Some(s) => if s in gone then Budget(b.projectId, None, b.monthlyLimit, b.warnThreshold) else b
  }

  /** Deleting a source leaves everything but the source and its records, and detaches the budgets. */
  lemma SourceDeletionLeaves(db: Tables, id: string)
    ensures var d := Exec(db, DeleteCostSource(id)).0;
            && Left(db.sources, d.sources, s => s != id)
            && Left(db.records, d.records, r => r in db.records && db.records[r].costSourceId != id)
            && d.projects == db.projects && d.roles == db.roles
            && d.users == db.users && d.groups == db.groups && d.members == db.members
            && d.budgets.Keys == db.budgets.Keys
            && forall b | b in db.budgets :: d.budgets[b] == Detached(db.budgets[b], {id})
  {
  }
}
