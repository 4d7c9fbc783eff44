/** SQLStore of internal/store/sql.go as an object over its tables, method by method. */
module Store {
  import opened Basics
  import opened Rebind
  import opened Model
  import opened CostWhere
  import opened Tables
  import opened Ledger

  /** newID, when the caller left the id empty; the new id comes from outside. */
  function WithId(id: string, newId: string): string {
    if id == "" then newId else id
  }

  /** nullString */
  function NullString(s: string): Option<string> {
    if s == "" then None else Some(s)
  }

  function Stamped(batch: seq<CostRecord>, ids: seq<string>): seq<CostRecord>
    requires |ids| == |batch|
  {
    seq(|batch|, i requires 0 <= i < |batch| => batch[i].(id := WithId(batch[i].id, ids[i])))
  }

  class SQLStore {
    const driver: string
    var projects: map<string, string>
    var sources: map<string, CostSource>
    var users: map<string, User>
    var groups: map<string, Group>
    var members: set<(string, string)>
    var roles: map<RoleKey, string>
    var budgets: map<string, Budget>
    var records: map<string, CostRecord>

    /** The state of the database. */
    function Contents(): Tables
      reads this
    {
      Tables(projects, sources, users, groups, members, roles, budgets, records)
    }

    constructor (driver: string)
      ensures Contents() == EMPTY && this.driver == driver
    {
      this.driver := driver;
      projects, sources, users, groups := map[], map[], map[], map[];
      members, roles, budgets, records := {}, map[], map[], map[];
    }

    method CreateProject(id: string, newId: string, name: string) returns (ok: bool)
      modifies this
      ensures (Contents(), ok) == Exec(old(Contents()), Op.CreateProject(WithId(id, newId), name))
      ensures newId != "" ==> NamesItsProject(Op.CreateProject(WithId(id, newId), name))
    {
      var key := if id == "" then newId else id;
      if key in projects || exists p | p in projects :: p != key && projects[p] == name {
        return false;
      }
      projects := projects[key := name];
      return true;
    }

    /** DELETE FROM projects: the cascades of its foreign keys, table by table. */
    method DeleteProject(id: string)
      modifies this
      ensures (Contents(), true) == Exec(old(Contents()), Op.DeleteProject(id))
    {
      var gone := set s | s in sources && sources[s].projectId == id;
      DropSources(gone);
      roles := map k | k in roles && k.projectId != id :: roles[k];
      budgets := map b | b in budgets && budgets[b].projectId != id :: budgets[b];
      records := map r | r in records && records[r].projectId != id :: records[r];
      projects := projects - {id};
    }

    method DropSources(gone: set<string>)
      modifies this
      ensures Contents() == WithoutSources(old(Contents()), gone)
    {
      records := map r | r in records && records[r].costSourceId !in gone :: records[r];
      budgets := map b | b in budgets ::
                   if budgets[b].costSourceId.Some? && budgets[b].costSourceId.value in gone
                   then budgets[b].(costSourceId := None) else budgets[b];
      sources := sources - gone;
    }

    method CreateCostSource(id: string, newId: string, source: CostSource) returns (ok: bool)
      modifies this
      ensures (Contents(), ok) == Exec(old(Contents()), Op.CreateCostSource(WithId(id, newId), source))
    {
      var key := if id == "" then newId else id;
      if key in sources || source.projectId !in projects {
        return false;
      }
      sources := sources[key := source.(lastCollectedAt := None)];
      return true;
    }

    method DeleteCostSource(id: string)
      modifies this
      ensures (Contents(), true) == Exec(old(Contents()), Op.DeleteCostSource(id))
    {
      DropSources({id});
    }

    method UpdateCostSourceCollectedAt(id: string, at: Time)
      modifies this
      ensures (Contents(), true) == Exec(old(Contents()), UpdateCollectedAt(id, at))
    {
      if id in sources {
        sources := sources[id := sources[id].(lastCollectedAt := Some(at))];
      }
    }

    method CreateUser(id: string, newId: string, email: string, displayName: string, subject: string)
      returns (key: string, ok: bool)
      modifies this
      ensures key == WithId(id, newId)
      ensures (Contents(), ok)
              == Exec(old(Contents()), Op.CreateUser(key, User(email, displayName, NullString(subject))))
    {
      key := if id == "" then newId else id;
      var user := User(email, displayName, NullString(subject));
      if || key in users
         || (exists u | u in users :: users[u].email == email)
         || (user.oidcSubject.Some? && exists u | u in users :: users[u].oidcSubject == user.oidcSubject)
      {
        return key, false;
      }
      users := users[key := user];
      return key, true;
    }

    method GetUserByEmail(email: string) returns (found: Option<string>)
      ensures found.Some? ==> found.value in users && users[found.value].email == email
      ensures found == None ==> forall u | u in users :: users[u].email != email
    {
      if u :| u in users && users[u].email == email {
        return Some(u);
      }
      return None;
    }

    /** No row answers to NULL: a row without a subject is never found. */
    method GetUserByOIDCSubject(subject: string) returns (found: Option<string>)
      ensures found.Some? ==> found.value in users && users[found.value].oidcSubject == Some(subject)
      ensures found == None ==> forall u | u in users :: users[u].oidcSubject != Some(subject)
    {
      if u :| u in users && users[u].oidcSubject == Some(subject) {
        return Some(u);
      }
      return None;
    }

    /** The claim column is not unique: any group that carries the claim may be the one found. */
    method GetGroupByOIDCClaim(claim: string) returns (found: Option<string>)
      ensures found.Some? ==> found.value in groups && groups[found.value].oidcClaim == Some(claim)
      ensures found == None ==> forall g | g in groups :: groups[g].oidcClaim != Some(claim)
    {
      if g :| g in groups && groups[g].oidcClaim == Some(claim) {
        return Some(g);
      }
      return None;
    }

    method CreateGroup(id: string, newId: string, name: string, claim: string) returns (key: string, ok: bool)
      modifies this
      ensures key == WithId(id, newId)
      ensures (Contents(), ok) == Exec(old(Contents()), Op.CreateGroup(key, Group(name, NullString(claim))))
    {
      key := if id == "" then newId else id;
      if key in groups || exists g | g in groups :: groups[g].name == name {
        return key, false;
      }
      groups := groups[key := Group(name, NullString(claim))];
      return key, true;
    }

    method AddGroupMember(groupId: string, userId: string) returns (ok: bool)
      modifies this
      ensures (Contents(), ok) == Exec(old(Contents()), Op.AddGroupMember(groupId, userId))
    {
      if groupId !in groups || userId !in users {
        return false;
      }
      members := members + {(groupId, userId)};
      return true;
    }

    method SetProjectRole(key: RoleKey, role: string) returns (ok: bool)
      modifies this
      ensures (Contents(), ok) == Exec(old(Contents()), Op.SetProjectRole(key, role))
    {
      if key.projectId !in projects {
        return false;
      }
      roles := roles[key := role];
      return true;
    }

    method RemoveProjectRole(key: RoleKey)
      modifies this
      ensures (Contents(), true) == Exec(old(Contents()), Op.RemoveProjectRole(key))
    {
      roles := roles - {key};
    }

    method UpdateProject(id: string, name: string) returns (ok: bool)
      modifies this
      ensures (Contents(), ok) == Exec(old(Contents()), Op.UpdateProject(id, name))
    {
      if id !in projects {
        return true;
      }
      if exists p | p in projects :: p != id && projects[p] == name {
        return false;
      }
      projects := projects[id := name];
      return true;
    }

    method UpdateCostSource(id: string, name: string, enabled: bool)
      modifies this
      ensures (Contents(), true) == Exec(old(Contents()), Op.UpdateCostSource(id, name, enabled))
    {
      if id in sources {
        var row := sources[id];
        sources := sources[id := CostSource(row.projectId, row.kind, name, enabled, row.lastCollectedAt)];
      }
    }

    method RemoveGroupMember(groupId: string, userId: string)
      modifies this
      ensures (Contents(), true) == Exec(old(Contents()), Op.RemoveGroupMember(groupId, userId))
    {
      members := members - {(groupId, userId)};
    }

    method CreateBudget(id: string, newId: string, budget: Budget) returns (ok: bool)
      modifies this
      ensures (Contents(), ok) == Exec(old(Contents()), Op.CreateBudget(WithId(id, newId), budget))
    {
      var key := if id == "" then newId else id;
      var attached := budget.costSourceId.Some?;
      if key in budgets || budget.projectId !in projects || (attached && budget.costSourceId.value !in sources) {
        return false;
      }
      budgets := budgets[key := budget];
      return true;
    }

    method UpdateBudget(id: string, monthlyLimit: real, warnThreshold: real)
      modifies this
      ensures (Contents(), true) == Exec(old(Contents()), Op.UpdateBudget(id, monthlyLimit, warnThreshold))
    {
      if id in budgets {
        var row := budgets[id];
        budgets := budgets[id := Budget(row.projectId, row.costSourceId, monthlyLimit, warnThreshold)];
      }
    }

    method DeleteBudget(id: string)
      modifies this
      ensures (Contents(), true) == Exec(old(Contents()), Op.DeleteBudget(id))
    {
      budgets := budgets - {id};
    }

    /** The insert loop inside one transaction: an error rolls every row of the batch back. */
    method InsertCostRecords(batch: seq<CostRecord>, ids: seq<string>) returns (ok: bool)
      requires |ids| == |batch|
      modifies this
      ensures (Contents(), ok) == Exec(old(Contents()), Op.InsertCostRecords(Stamped(batch, ids)))
    {
      var tx := records;
      ghost var all := Stamped(batch, ids);
      for i := 0 to |batch|
        invariant Contents() == old(Contents())
        invariant InsertAll(old(Contents()), all[..i]) == Some(old(Contents()).(records := tx))
      {
        var r := batch[i];
        if r.id == "" {
          r := r.(id := ids[i]);
        }
        assert all[..i + 1][..i] == all[..i] && all[i] == r;
        if r.id in tx || r.projectId !in projects || r.costSourceId !in sources {
          FailedPrefix(old(Contents()), all, i + 1);
          return false;
        }
        tx := tx[r.id := r];
      }
      assert all[..|batch|] == all;
      records := tx;
      return true;
    }

    /** The rows of the query, latest first, then the page of them that is asked for, if the driver reads that. */
    method QueryCostRecords(q: CostQuery) returns (rows: Option<seq<CostRecord>>)
      requires References(Contents())
      ensures Answers(rows, driver, records, q)
    {
      if driver != "pgx" && q.limit <= 0 && q.offset > 0 {
        return None;
      }
      var where, args := BuildCostWhere(q);
      var text := RebindFor(driver, where);
      var rest := map k | k in records && Selects(driver, text, args, records[k]) == Some(true) :: records[k];
      assert rest == SelectedRows(driver, records, q);
      var all := OrderByStart(rest);
      rows := Some(Page(all, q.limit, q.offset));
    }

    /** The aggregate query, row by row. */
    method AggregateCosts(q: CostQuery) returns (summary: Summary)
      ensures summary == Aggregated(driver, records, q)
    {
      var where, args := BuildCostWhere(q);
      var text := RebindFor(driver, where);
      var rest := map k | k in records && Selects(driver, text, args, records[k]) == Some(true) :: records[k];
      assert rest == SelectedRows(driver, records, q);
      summary := NOTHING;
      while rest != map[]
        invariant Aggregated(driver, records, q) == summary.Plus(Total(rest))
        decreases |rest|
      {
        var k :| k in rest;
        TotalByAnyRow(rest, k);
        PlusLaws(summary, CostOf(rest[k]), Total(rest - {k}));
        summary := summary.Plus(CostOf(rest[k]));
        rest := rest - {k};
      }
      PlusLaws(summary, NOTHING, NOTHING);
    }
  }

  lemma {:induction false} FailedPrefix(db: Tables, batch: seq<CostRecord>, k: nat)
    requires k <= |batch| && InsertAll(db, batch[..k]) == None
    ensures InsertAll(db, batch) == None
    decreases |batch| - k
  {
    if k < |batch| {
      assert batch[..k + 1][..k] == batch[..k];
      FailedPrefix(db, batch, k + 1);
    } else {
      assert batch[..k] == batch;
    }
  }

  /** A row with the latest start. */
  method Latest(rows: map<string, CostRecord>) returns (best: string)
    requires rows != map[]
    ensures best in rows && forall k | k in rows :: rows[k].startTime <= rows[best].startTime
  {
    best :| best in rows;
    var rest := rows.Keys - {best};
    while rest != {}
      invariant rest <= rows.Keys && best in rows
      invariant forall k | k in rows && k !in rest :: rows[k].startTime <= rows[best].startTime
    {
      var k :| k in rest;
      if rows[k].startTime > rows[best].startTime {
        best := k;
      }
      rest := rest - {k};
    }
  }

  /** The rows listed so far, latest first, none earlier than what remains. */
  ghost predicate ListedBefore(
    rows: seq<CostRecord>, selected: map<string, CostRecord>, rest: map<string, CostRecord>) {
    && rest.Keys <= selected.Keys && (forall k | k in rest :: rest[k] == selected[k])
    && Lists(rows, selected - rest.Keys)
    && LatestFirst(rows)
    && (forall r, k | r in rows && k in rest :: r.startTime >= rest[k].startTime)
  }

  lemma ListsNext(rows: seq<CostRecord>, selected: map<string, CostRecord>, rest: map<string, CostRecord>, next: string)
    requires ListedBefore(rows, selected, rest) && next in rest && rest[next].id == next
    requires forall k | k in rest :: rest[k].startTime <= rest[next].startTime
    ensures ListedBefore(rows + [rest[next]], selected, rest - {next})
    ensures |rest - {next}| < |rest|
  {
    MovesOver(selected, rest, next);
    ListGrows(rows, selected - rest.Keys, rest[next]);
    StaysOrdered(rows, rest[next]);
    forall r, k | r in rows + [rest[next]] && k in rest - {next} ensures r.startTime >= rest[k].startTime {
      assert r in rows || r == rest[next];
    }
  }

  lemma StaysOrdered(rows: seq<CostRecord>, r: CostRecord)
    requires LatestFirst(rows) && forall x | x in rows :: x.startTime >= r.startTime
    ensures LatestFirst(rows + [r])
  {
    var all := rows + [r];
    forall i, j | 0 <= i < j < |all| ensures all[i].startTime >= all[j].startTime {
      assert all[i] in rows;
    }
  }

  /** ORDER BY start_time DESC */
  method OrderByStart(selected: map<string, CostRecord>) returns (rows: seq<CostRecord>)
    requires forall k | k in selected :: selected[k].id == k
    ensures Lists(rows, selected) && LatestFirst(rows)
  {
    var rest := selected;
    rows := [];
    assert selected - rest.Keys == map[];
    while rest != map[]
      invariant ListedBefore(rows, selected, rest)
      decreases |rest|
    {
      var next := Latest(rest);
      ListsNext(rows, selected, rest, next);
      rows := rows + [rest[next]];
      rest := rest - {next};
    }
    assert rest.Keys == {} && selected - rest.Keys == selected;
  }

  lemma MovesOver<K, V>(all: map<K, V>, rest: map<K, V>, k: K)
    requires rest.Keys <= all.Keys && k in rest && rest[k] == all[k]
    ensures all - (rest - {k}).Keys == (all - rest.Keys)[k := rest[k]]
    ensures |rest - {k}| < |rest|
  {
    Smaller(rest, k);
  }

  lemma ListGrows(rs: seq<CostRecord>, rows: map<string, CostRecord>, r: CostRecord)
    requires Lists(rs, rows) && r.id !in rows
    ensures Lists(rs + [r], rows[r.id := r])
  {
    var all := rs + [r];
    assert forall x :: x in all <==> x in rs || x == r;
    forall i, j | 0 <= i < j < |all| ensures all[i].id != all[j].id {
      assert all[i] in rs;
    }
  }
}
