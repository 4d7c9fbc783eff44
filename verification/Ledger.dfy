/**
 * Cost totals: the sums AggregateCosts asks the database for, the rows QueryCostRecords returns, and
 * how both move with inserted batches and split over projects (internal/store/sql.go).
 */
module Ledger {
  import opened Basics
  import opened Model
  import opened CostWhere
  import opened Tables

  /** store.CostSummary */
  datatype Summary = Summary(list: real, net: real, amortized: real, amortizedNet: real, count: nat) {
    function Plus(other: Summary): Summary {
      Summary(list + other.list, net + other.net, amortized + other.amortized,
              amortizedNet + other.amortizedNet, count + other.count)
    }
  }

  const NOTHING := Summary(0.0, 0.0, 0.0, 0.0, 0)

  function CostOf(r: CostRecord): Summary {
    Summary(r.listCost, r.netCost, r.amortizedCost, r.amortizedNetCost, 1)
  }

  /** The sum over a list of records. */
  function Fold(rs: seq<CostRecord>): Summary {
    if rs == [] then NOTHING else CostOf(rs[0]).Plus(Fold(rs[1..]))
  }

  /** The sum over the rows of a table, whatever the order of the rows. */
  ghost function Total(rows: map<string, CostRecord>): Summary {
    if rows == map[] then NOTHING
    else
      var k :| k in rows;
      CostOf(rows[k]).Plus(Total(rows - {k}))
  }

  // ---------------------------------------------------------------- what a query selects

  function SelectedRows(driver: string, rows: map<string, CostRecord>, q: CostQuery): map<string, CostRecord> {
    map k | k in rows && SqlSelects(driver, q, rows[k]) :: rows[k]
  }

  function MatchingRows(rows: map<string, CostRecord>, q: CostQuery): map<string, CostRecord> {
    map k | k in rows && Matches(q, rows[k]) :: rows[k]
  }

  lemma SqlSelectsMatches(driver: string, rows: map<string, CostRecord>, q: CostQuery)
    ensures SelectedRows(driver, rows, q) == MatchingRows(rows, q)
  {
    forall k | k in rows ensures SqlSelects(driver, q, rows[k]) <==> Matches(q, rows[k]) {
      WhereSelectsMatches(driver, q, rows[k]);
    }
  }

  /** SELECT of the coalesced sums and the count. */
  ghost function Aggregated(driver: string, rows: map<string, CostRecord>, q: CostQuery): Summary {
    Total(SelectedRows(driver, rows, q))
  }

  lemma AggregatedIsTotal(driver: string, rows: map<string, CostRecord>, q: CostQuery)
    ensures Aggregated(driver, rows, q) == Total(MatchingRows(rows, q))
  {
    SqlSelectsMatches(driver, rows, q);
  }

  /** The order of the rows: latest start first, ties in any order. */
  ghost predicate LatestFirst(rs: seq<CostRecord>) {
    forall i, j | 0 <= i < j < |rs| :: rs[i].startTime >= rs[j].startTime
  }

  /** A list of exactly these rows, each once. */
  ghost predicate Lists(rs: seq<CostRecord>, rows: map<string, CostRecord>) {
    && (forall k | k in rows :: rows[k].id == k)
    && (forall r | r in rs :: r.id in rows && rows[r.id] == r)
    && (forall k | k in rows :: rows[k] in rs)
    && (forall i, j | 0 <= i < j < |rs| :: rs[i].id != rs[j].id)
  }

  /** LIMIT and OFFSET, each only when positive. */
  function Page(rs: seq<CostRecord>, limit: int, offset: int): seq<CostRecord> {
    var tail := if 0 < offset <= |rs| then rs[offset..] else if offset > 0 then [] else rs;
    if 0 < limit <= |tail| then tail[..limit] else tail
  }

  /** SQLite has no OFFSET without a LIMIT; PostgreSQL has. */
  predicate PageIsReadable(driver: string, q: CostQuery) {
    driver == "pgx" || q.offset <= 0 || q.limit > 0
  }

  /** What QueryCostRecords may return, None for an error. */
  ghost predicate Answers(out: Option<seq<CostRecord>>, driver: string, rows: map<string, CostRecord>, q: CostQuery) {
    if !PageIsReadable(driver, q) then out == None
    else
      out.Some? && exists all ::
        Lists(all, SelectedRows(driver, rows, q)) && LatestFirst(all) && out.value == Page(all, q.limit, q.offset)
  }

  // ---------------------------------------------------------------- sums do not depend on order

  lemma {:induction false} TotalByAnyRow(rows: map<string, CostRecord>, k: string)
    requires k in rows
    ensures Total(rows) == CostOf(rows[k]).Plus(Total(rows - {k}))
    decreases |rows|
  {
    var j :| j in rows && Total(rows) == CostOf(rows[j]).Plus(Total(rows - {j}));
    if j != k {
      TotalByAnyRow(rows - {j}, k);
      TotalByAnyRow(rows - {k}, j);
      assert rows - {j} - {k} == rows - {k} - {j};
      assert (rows - {j})[k] == rows[k] && (rows - {k})[j] == rows[j];
      PlusLaws(CostOf(rows[j]), CostOf(rows[k]), Total(rows - {j} - {k}));
    }
  }

  lemma PlusLaws(a: Summary, b: Summary, c: Summary)
    ensures a.Plus(b).Plus(c) == a.Plus(b.Plus(c))
    ensures a.Plus(b.Plus(c)) == b.Plus(a.Plus(c))
    ensures a.Plus(b) == b.Plus(a) && a.Plus(NOTHING) == a && NOTHING.Plus(a) == a
  {
  }

  lemma {:induction false} FoldOfListed(rs: seq<CostRecord>, rows: map<string, CostRecord>)
    requires Lists(rs, rows)
    ensures Fold(rs) == Total(rows)
    decreases |rs|
  {
    if rs == [] {
      assert rows.Keys == {};
    } else {
      var k, rest := rs[0].id, rs[1..];
      assert rs[0] in rs;
      TotalByAnyRow(rows, k);
      RestIsListed(rs, rows);
      FoldOfListed(rest, rows - {k});
    }
  }

  lemma RestIsListed(rs: seq<CostRecord>, rows: map<string, CostRecord>)
    requires Lists(rs, rows) && rs != []
    ensures Lists(rs[1..], rows - {rs[0].id})
  {
    var rest := rs[1..];
    forall r | r in rest ensures r in rs && r.id != rs[0].id {
      var i :| 0 <= i < |rest| && rest[i] == r;
      assert rs[i + 1] == r;
    }
    forall k | k in rows && k != rs[0].id ensures rows[k] in rest {
      var i :| 0 <= i < |rs| && rs[i] == rows[k];
      assert rest[i - 1] == rows[k];
    }
  }

  /**
   * The aggregate of a query is the fold over the unlimited list that the query itself returns, in
   * whatever order ties come.
   */
  lemma AggregateIsFoldOfQuery(
    driver: string, rows: map<string, CostRecord>, q: CostQuery, out: Option<seq<CostRecord>>)
    requires q.limit <= 0 && q.offset <= 0
    requires Answers(out, driver, rows, q)
    ensures out.Some? && Aggregated(driver, rows, q) == Fold(out.value)
    ensures Aggregated(driver, rows, q).count == |out.value|
  {
    FoldOfListed(out.value, SelectedRows(driver, rows, q));
    FoldCounts(out.value);
  }

  lemma {:induction false} FoldCounts(rs: seq<CostRecord>)
    ensures Fold(rs).count == |rs|
  {
    if rs != [] {
      FoldCounts(rs[1..]);
    }
  }

  lemma {:induction false} ColumnSumFromFront(rs: seq<CostRecord>, column: CostRecord -> real)
    requires rs != []
    ensures ColumnSum(rs, column) == column(rs[0]) + ColumnSum(rs[1..], column)
  {
    var n := |rs| - 1;
    if n > 0 {
      ColumnSumFromFront(rs[..n], column);
      assert rs[..n][1..] == rs[1..][..n - 1];
    } else {
      assert rs[..0] == [] && rs[1..] == [];
    }
  }

  /** Column by column, the fold is the sum over the list. */
  lemma {:induction false} FoldIsByColumn(
    rs: seq<CostRecord>, list: CostRecord -> real, net: CostRecord -> real, amortized: CostRecord -> real,
    amortizedNet: CostRecord -> real)
    requires forall r :: list(r) == r.listCost && net(r) == r.netCost
    requires forall r :: amortized(r) == r.amortizedCost && amortizedNet(r) == r.amortizedNetCost
    ensures Fold(rs).list == ColumnSum(rs, list) && Fold(rs).net == ColumnSum(rs, net)
    ensures Fold(rs).amortized == ColumnSum(rs, amortized) && Fold(rs).amortizedNet == ColumnSum(rs, amortizedNet)
  {
    if rs != [] {
      FoldIsByColumn(rs[1..], list, net, amortized, amortizedNet);
      ColumnSumFromFront(rs, list);
      ColumnSumFromFront(rs, net);
      ColumnSumFromFront(rs, amortized);
      ColumnSumFromFront(rs, amortizedNet);
    }
  }

  /**
   * The summary of a query, component by component: the sum, over any unlimited list that the query
   * returns, of the column that the component is named after, and the number of rows.
   */
  lemma AggregateSumsColumns(driver: string, rows: map<string, CostRecord>, q: CostQuery, out: Option<seq<CostRecord>>)
    requires q.limit <= 0 && q.offset <= 0
    requires Answers(out, driver, rows, q)
    ensures out.Some?
    ensures var summary := Aggregated(driver, rows, q);
            && summary.list == ColumnSum(out.value, (r: CostRecord) => r.listCost)
            && summary.net == ColumnSum(out.value, (r: CostRecord) => r.netCost)
            && summary.amortized == ColumnSum(out.value, (r: CostRecord) => r.amortizedCost)
            && summary.amortizedNet == ColumnSum(out.value, (r: CostRecord) => r.amortizedNetCost)
            && summary.count == |out.value|
  {
    AggregateIsFoldOfQuery(driver, rows, q, out);
    FoldIsByColumn(out.value, (r: CostRecord) => r.listCost, (r: CostRecord) => r.netCost,
                   (r: CostRecord) => r.amortizedCost, (r: CostRecord) => r.amortizedNetCost);
  }

  // ---------------------------------------------------------------- pages

  /** A page starts behind the offset, and ends at the limit or with the list; without a limit it goes to the end. */
  lemma PageIsASlice(rs: seq<CostRecord>, limit: int, offset: int)
    ensures var from := if offset <= 0 then 0 else if offset < |rs| then offset else |rs|;
            var to := if limit <= 0 || |rs| <= from + limit then |rs| else from + limit;
            Page(rs, limit, offset) == rs[from..to]
  {
  }

  /** Consecutive pages are one longer page. */
  lemma NextPageContinues(rs: seq<CostRecord>, first: int, second: int, offset: int)
    requires first > 0 && second > 0 && offset >= 0
    ensures Page(rs, first, offset) + Page(rs, second, offset + first) == Page(rs, first + second, offset)
  {
    PageIsASlice(rs, first, offset);
    PageIsASlice(rs, second, offset + first);
    PageIsASlice(rs, first + second, offset);
  }

  // ---------------------------------------------------------------- batches add their sums

  function Matching(rs: seq<CostRecord>, q: CostQuery): seq<CostRecord> {
    if rs == [] then []
    else
      var last := rs[|rs| - 1];
      Matching(rs[..|rs| - 1], q) + if Matches(q, last) then [last] else []
  }

  lemma {:induction false} FoldOfAppend(rs: seq<CostRecord>, r: CostRecord)
    ensures Fold(rs + [r]) == Fold(rs).Plus(CostOf(r))
  {
    if rs == [] {
      assert rs + [r] == [r] && [r][1..] == [];
    } else {
      assert (rs + [r])[1..] == rs[1..] + [r];
      FoldOfAppend(rs[1..], r);
    }
  }

  lemma TotalOfNewRow(rows: map<string, CostRecord>, r: CostRecord, q: CostQuery)
    requires r.id !in rows
    ensures Total(MatchingRows(rows[r.id := r], q))
         == Total(MatchingRows(rows, q)).Plus(if Matches(q, r) then CostOf(r) else NOTHING)
  {
    var before, after := MatchingRows(rows, q), MatchingRows(rows[r.id := r], q);
    if Matches(q, r) {
      TotalByAnyRow(after, r.id);
      assert after - {r.id} == before;
    } else {
      assert after == before;
    }
  }

  lemma FoldOfLast(rs: seq<CostRecord>, q: CostQuery)
    requires rs != []
    ensures var last := rs[|rs| - 1];
            Fold(Matching(rs, q))
              == Fold(Matching(rs[..|rs| - 1], q)).Plus(if Matches(q, last) then CostOf(last) else NOTHING)
  {
    var front, last := Matching(rs[..|rs| - 1], q), rs[|rs| - 1];
    if Matches(q, last) {
      FoldOfAppend(front, last);
    } else {
      assert front + [] == front;
      PlusLaws(Fold(front), NOTHING, NOTHING);
    }
  }

  /** The rows of d are those of db and the matching rows of a batch, as far as the sums show. */
  ghost predicate AddsUp(db: Tables, d: Tables, batch: seq<CostRecord>, q: CostQuery) {
    Total(MatchingRows(d.records, q)) == Total(MatchingRows(db.records, q)).Plus(Fold(Matching(batch, q)))
  }

  lemma NothingAddsUp(db: Tables, q: CostQuery)
    ensures AddsUp(db, db, [], q)
  {
    PlusLaws(Total(MatchingRows(db.records, q)), NOTHING, NOTHING);
  }

  lemma {:induction false} BatchTotals(db: Tables, d: Tables, batch: seq<CostRecord>, q: CostQuery)
    requires InsertAll(db, batch) == Some(d)
    ensures AddsUp(db, d, batch, q)
    decreases |batch|
  {
    if batch == [] {
      NothingAddsUp(db, q);
    } else {
      var mid := InsertAll(db, batch[..|batch| - 1]).value;
      BatchTotals(db, mid, batch[..|batch| - 1], q);
      LastAddsUp(db, mid, d, batch, q);
    }
  }

  lemma LastAddsUp(db: Tables, d: Tables, e: Tables, batch: seq<CostRecord>, q: CostQuery)
    requires batch != [] && InsertOne(d, batch[|batch| - 1]) == Some(e) && AddsUp(db, d, batch[..|batch| - 1], q)
    ensures AddsUp(db, e, batch, q)
  {
    var last := batch[|batch| - 1];
    TotalOfNewRow(d.records, last, q);
    FoldOfLast(batch, q);
    PlusLaws(Total(MatchingRows(db.records, q)), Fold(Matching(batch[..|batch| - 1], q)),
             if Matches(q, last) then CostOf(last) else NOTHING);
  }

  /** Inserting a batch adds exactly its matching records to every aggregate; a failed batch adds nothing. */
  lemma InsertAddsItsSums(driver: string, db: Tables, batch: seq<CostRecord>, q: CostQuery)
    ensures var (d, ok) := Exec(db, InsertCostRecords(batch));
            Aggregated(driver, d.records, q)
            == Aggregated(driver, db.records, q).Plus(if ok then Fold(Matching(batch, q)) else NOTHING)
  {
    BatchIsExecuted(db, batch);
    match InsertAll(db, batch)
    case Some(d) =>
      AggregatedIsTotal(driver, db.records, q);
      AggregatedIsTotal(driver, d.records, q);
      BatchTotals(db, d, batch, q);
    case None =>
      PlusLaws(Aggregated(driver, db.records, q), NOTHING, NOTHING);
  }

  // ---------------------------------------------------------------- projects partition the total

  /** The sum of what each project contributes, whatever the order of the projects. */
  ghost function SumOver(ps: set<string>, part: string -> Summary): Summary {
    if ps == {} then NOTHING
    else
      var p :| p in ps;
      part(p).Plus(SumOver(ps - {p}, part))
  }

  /** The sum of the per-project aggregates over a set of projects. */
  ghost function SumOverProjects(
    driver: string, rows: map<string, CostRecord>, q: CostQuery, ps: set<string>): Summary {
    SumOver(ps, p => Aggregated(driver, rows, q.(projectId := p)))
  }

  /** A total that splits off the part of any project is the sum of the parts. */
  lemma {:induction false} SumOverSplits(
    all: set<string>, ps: set<string>, part: string -> Summary, total: set<string> -> Summary)
    requires ps <= all && total({}) == NOTHING
    requires forall s, p | s <= all && p in s :: total(s) == part(p).Plus(total(s - {p}))
    ensures SumOver(ps, part) == total(ps)
    decreases |ps|
  {
    if ps != {} {
      var p :| p in ps && SumOver(ps, part) == part(p).Plus(SumOver(ps - {p}, part));
      SumOverSplits(all, ps - {p}, part, total);
    }
  }

  lemma {:induction false} TotalOfDisjoint(a: map<string, CostRecord>, b: map<string, CostRecord>)
    requires a.Keys !! b.Keys
    ensures Total(a + b) == Total(a).Plus(Total(b))
    decreases |a|
  {
    if a == map[] {
      assert a + b == b;
      PlusLaws(Total(b), NOTHING, NOTHING);
    } else {
      var k :| k in a;
      UnionWithout(a, b, k);
      Smaller(a, k);
      TotalByAnyRow(a, k);
      TotalByAnyRow(a + b, k);
      TotalOfDisjoint(a - {k}, b);
      PlusLaws(CostOf(a[k]), Total(a - {k}), Total(b));
    }
  }

  lemma UnionWithout<K, V>(a: map<K, V>, b: map<K, V>, k: K)
    requires a.Keys !! b.Keys && k in a
    ensures (a + b) - {k} == (a - {k}) + b && (a + b)[k] == a[k]
  {
  }

  lemma Smaller<K, V>(a: map<K, V>, k: K)
    requires k in a
    ensures |a - {k}| < |a|
  {
    assert (a - {k}).Keys == a.Keys - {k};
  }

  function RowsOfProjects(rows: map<string, CostRecord>, ps: set<string>): map<string, CostRecord> {
    map k | k in rows && rows[k].projectId in ps :: rows[k]
  }

  lemma ProjectIsOneRestriction(q: CostQuery, p: string, r: CostRecord)
    requires p != ""
    ensures Matches(q.(projectId := p), r) <==> Matches(q.(projectId := ""), r) && r.projectId == p
  {
  }

  /** The rows of one project among the rows of all. */
  ghost predicate OwnRows(all: map<string, CostRecord>, own: map<string, CostRecord>, p: string) {
    && (forall k :: k in own <==> k in all && all[k].projectId == p)
    && (forall k | k in own :: own[k] == all[k])
  }

  lemma OwnRowsMatch(rows: map<string, CostRecord>, q: CostQuery, p: string)
    requires p != ""
    ensures OwnRows(MatchingRows(rows, q.(projectId := "")), MatchingRows(rows, q.(projectId := p)), p)
  {
    forall k | k in rows
      ensures Matches(q.(projectId := p), rows[k]) <==> Matches(q.(projectId := ""), rows[k]) && rows[k].projectId == p
    {
      ProjectIsOneRestriction(q, p, rows[k]);
    }
  }

  /** The rows over a set of projects: those of one project, and the rest. */
  lemma PartsStep(all: map<string, CostRecord>, own: map<string, CostRecord>, ps: set<string>, p: string)
    requires p in ps && OwnRows(all, own, p)
    ensures Total(RowsOfProjects(all, ps)) == Total(own).Plus(Total(RowsOfProjects(all, ps - {p})))
  {
    assert RowsOfProjects(all, ps) == own + RowsOfProjects(all, ps - {p});
    TotalOfDisjoint(own, RowsOfProjects(all, ps - {p}));
  }

  lemma NoRowsOfNoProjects(rows: map<string, CostRecord>)
    ensures Total(RowsOfProjects(rows, {})) == NOTHING
  {
    assert RowsOfProjects(rows, {}) == map[];
  }

  lemma OneProjectSplitsOff(driver: string, rows: map<string, CostRecord>, q: CostQuery, ps: set<string>, p: string)
    requires p in ps && p != ""
    ensures Total(RowsOfProjects(MatchingRows(rows, q.(projectId := "")), ps))
            == Aggregated(driver, rows, q.(projectId := p)).Plus(
                 Total(RowsOfProjects(MatchingRows(rows, q.(projectId := "")), ps - {p})))
  {
    AggregatedIsTotal(driver, rows, q.(projectId := p));
    OwnRowsMatch(rows, q, p);
    PartsStep(MatchingRows(rows, q.(projectId := "")), MatchingRows(rows, q.(projectId := p)), ps, p);
  }

  lemma SumOfParts(driver: string, rows: map<string, CostRecord>, q: CostQuery, ps: set<string>)
    requires "" !in ps
    ensures SumOverProjects(driver, rows, q, ps) == Total(RowsOfProjects(MatchingRows(rows, q.(projectId := "")), ps))
  {
    var part := p => Aggregated(driver, rows, q.(projectId := p));
    var total := s => Total(RowsOfProjects(MatchingRows(rows, q.(projectId := "")), s));
    forall s, p | s <= ps && p in s ensures total(s) == part(p).Plus(total(s - {p})) {
      OneProjectSplitsOff(driver, rows, q, s, p);
    }
    NoRowsOfNoProjects(MatchingRows(rows, q.(projectId := "")));
    SumOverSplits(ps, ps, part, total);
  }

  lemma ProjectsPartition(driver: string, db: Tables, q: CostQuery)
    requires Consistent(db) && "" !in db.projects
    ensures SumOverProjects(driver, db.records, q, db.projects.Keys)
            == Aggregated(driver, db.records, q.(projectId := ""))
  {
    SumOfParts(driver, db.records, q, db.projects.Keys);
    AggregatedIsTotal(driver, db.records, q.(projectId := ""));
    EveryRowHasAProject(db, MatchingRows(db.records, q.(projectId := "")));
  }

  /** The store replaces an empty project id by a new one before the insert. */
  predicate NamesItsProject(op: Op) {
    op.CreateProject? ==> op.id != ""
  }

  lemma NoEmptyProjectId(db: Tables, op: Op)
    requires "" !in db.projects && NamesItsProject(op)
    ensures "" !in Exec(db, op).0.projects
  {
    if op.InsertCostRecords? {
      BatchIsExecuted(db, op.batch);
      BatchIsAllOrNothing(db, op.batch);
    }
  }

  lemma {:induction false} ProjectIdsAreNeverEmpty(ops: seq<Op>)
    requires forall op | op in ops :: NamesItsProject(op)
    ensures "" !in ExecAll(EMPTY, ops).projects
  {
    if ops != [] {
      var n := |ops| - 1;
      assert ops[n] in ops;
      ProjectIdsAreNeverEmpty(ops[..n]);
      NoEmptyProjectId(ExecAll(EMPTY, ops[..n]), ops[n]);
    }
  }

  /**
   * After every sequence of store operations, the per-project aggregates of a query, summed over all
   * projects, are its aggregate over all projects.
   */
  lemma ProjectsPartitionTheTotal(driver: string, ops: seq<Op>, q: CostQuery)
    requires forall op | op in ops :: NamesItsProject(op)
    ensures var db := ExecAll(EMPTY, ops);
            SumOverProjects(driver, db.records, q, db.projects.Keys)
              == Aggregated(driver, db.records, q.(projectId := ""))
  {
    StoreStaysConsistent(ops);
    ProjectIdsAreNeverEmpty(ops);
    ProjectsPartition(driver, ExecAll(EMPTY, ops), q);
  }

  lemma EveryRowHasAProject(db: Tables, rows: map<string, CostRecord>)
    requires References(db) && forall k | k in rows :: k in db.records && rows[k] == db.records[k]
    ensures RowsOfProjects(rows, db.projects.Keys) == rows
  {
  }
}
