/** Which sources a collection pass visits (collectAll, collectByTypes and collectForProject). */
module Visits {
  import opened Basics
  import opened Tables

  /** A listed source row. */
  datatype Row = Row(id: string, source: CostSource)

  /** What the store lists: projects, and the sources of each; None where listing fails. */
  datatype Snapshot = Snapshot(projects: Option<seq<string>>, sources: string -> Option<seq<Row>>)

  const CSP_TYPES: set<string> := {"aws_account", "azure_subscription", "gcp_project"}
  const KUBERNETES_TYPES: set<string> := {"kubernetes"}

  /** The enabled rows, of the wanted types if types are given. */
  function Wanted(rows: seq<Row>, types: Option<set<string>>): seq<Row> {
    if rows == [] then []
    else
      var last := rows[|rows| - 1];
      Wanted(rows[..|rows| - 1], types)
      + if last.source.enabled && (types.Some? ==> last.source.kind in types.value) then [last] else []
  }

  function RowsOf(snap: Snapshot, project: string): seq<Row> {
    match snap.sources(project) case Some(rows) => rows case None => []
  }

  function VisitsOf(snap: Snapshot, projects: seq<string>, types: Option<set<string>>): seq<Row> {
    if projects == [] then []
    else
      VisitsOf(snap, projects[..|projects| - 1], types) + Wanted(RowsOf(snap, projects[|projects| - 1]), types)
  }

  function Visits(snap: Snapshot, types: Option<set<string>>): seq<Row> {
    match snap.projects case Some(ps) => VisitsOf(snap, ps, types) case None => []
  }

  // ---------------------------------------------------------------- the loops

  method CollectForProject(snap: Snapshot, project: string) returns (visits: seq<Row>)
    ensures visits == Wanted(RowsOf(snap, project), None)
  {
    visits := [];
    var sources := snap.sources(project);
    if sources.None? {
      return;
    }
    for i := 0 to |sources.value|
      invariant visits == Wanted(sources.value[..i], None)
    {
      var source := sources.value[i];
      assert sources.value[..i + 1][..i] == sources.value[..i];
      if !source.source.enabled {
        continue;
      }
      visits := visits + [source];
    }
    assert sources.value[..|sources.value|] == sources.value;
  }

  method CollectAll(snap: Snapshot) returns (visits: seq<Row>)
    ensures visits == Visits(snap, None)
  {
    visits := [];
    if snap.projects.None? {
      return;
    }
    var projects := snap.projects.value;
    for i := 0 to |projects|
      invariant visits == VisitsOf(snap, projects[..i], None)
    {
      var more := CollectForProject(snap, projects[i]);
      assert projects[..i + 1][..i] == projects[..i];
      visits := visits + more;
    }
    assert projects[..|projects|] == projects;
  }

  method CollectByTypes(snap: Snapshot, types: seq<string>) returns (visits: seq<Row>)
    ensures visits == Visits(snap, Some(set t | t in types))
  {
    visits := [];
    if snap.projects.None? {
      return;
    }
    var typeSet := set t | t in types;
    var projects := snap.projects.value;
    for i := 0 to |projects|
      invariant visits == VisitsOf(snap, projects[..i], Some(typeSet))
    {
      assert projects[..i + 1][..i] == projects[..i];
      var sources := snap.sources(projects[i]);
      if sources.None? {
        continue;
      }
      var rows := sources.value;
      ghost var before := visits;
      for j := 0 to |rows|
        invariant visits == before + Wanted(rows[..j], Some(typeSet))
      {
        assert rows[..j + 1][..j] == rows[..j];
        if !rows[j].source.enabled || rows[j].source.kind !in typeSet {
          continue;
        }
        visits := visits + [rows[j]];
      }
      assert rows[..|rows|] == rows;
    }
    assert projects[..|projects|] == projects;
  }

  // ---------------------------------------------------------------- what the visits are

  lemma {:induction false} WantedRows(rows: seq<Row>, types: Option<set<string>>, row: Row)
    ensures row in Wanted(rows, types) <==>
            row in rows && row.source.enabled && (types.Some? ==> row.source.kind in types.value)
  {
    if rows != [] {
      WantedRows(rows[..|rows| - 1], types, row);
      assert rows == rows[..|rows| - 1] + [rows[|rows| - 1]];
    }
  }

  lemma {:induction false} VisitedRows(snap: Snapshot, projects: seq<string>, types: Option<set<string>>, row: Row)
    ensures row in VisitsOf(snap, projects, types) <==>
            && row.source.enabled && (types.Some? ==> row.source.kind in types.value)
            && exists p :: p in projects && row in RowsOf(snap, p)
  {
    if projects != [] {
      var front, last := projects[..|projects| - 1], projects[|projects| - 1];
      VisitedRows(snap, front, types, row);
      WantedRows(RowsOf(snap, last), types, row);
      assert projects == front + [last];
    }
  }

  /** The types of all listed sources. */
  ghost predicate AllTypes(snap: Snapshot, types: set<string>) {
    forall p, row | row in RowsOf(snap, p) :: row.source.kind in types
  }

  lemma {:induction false} WantedOfAllTypes(rows: seq<Row>, types: set<string>)
    requires forall row | row in rows :: row.source.kind in types
    ensures Wanted(rows, None) == Wanted(rows, Some(types))
  {
    if rows != [] {
      WantedOfAllTypes(rows[..|rows| - 1], types);
    }
  }

  lemma {:induction false} VisitsOfAllTypes(snap: Snapshot, projects: seq<string>, types: set<string>)
    requires AllTypes(snap, types)
    ensures VisitsOf(snap, projects, None) == VisitsOf(snap, projects, Some(types))
  {
    if projects != [] {
      VisitsOfAllTypes(snap, projects[..|projects| - 1], types);
      WantedOfAllTypes(RowsOf(snap, projects[|projects| - 1]), types);
    }
  }

  /** On one snapshot collectAll visits the same sequence as collectByTypes given every type. */
  lemma AllIsByEveryType(snap: Snapshot, types: set<string>)
    requires AllTypes(snap, types)
    ensures Visits(snap, None) == Visits(snap, Some(types))
  {
    if snap.projects.Some? {
      VisitsOfAllTypes(snap, snap.projects.value, types);
    }
  }

  predicate Distinct<T(==)>(xs: seq<T>) {
    forall i, j | 0 <= i < j < |xs| :: xs[i] != xs[j]
  }

  predicate DistinctIds(rows: seq<Row>) {
    forall i, j | 0 <= i < j < |rows| :: rows[i].id != rows[j].id
  }

  /** A snapshot of a database: every project once, and every source of a project once. */
  ghost predicate SnapshotOf(snap: Snapshot, db: Tables) {
    && snap.projects.Some? && Distinct(snap.projects.value)
    && (forall p :: p in snap.projects.value <==> p in db.projects)
    && (forall p | p in db.projects ::
          && snap.sources(p).Some? && DistinctIds(snap.sources(p).value)
          && (forall row :: row in snap.sources(p).value <==>
                row.id in db.sources && row.source == db.sources[row.id] && row.source.projectId == p))
  }

  lemma {:induction false} WantedOnce(rows: seq<Row>, types: Option<set<string>>)
    requires DistinctIds(rows)
    ensures DistinctIds(Wanted(rows, types))
  {
    if rows != [] {
      var front, last := rows[..|rows| - 1], rows[|rows| - 1];
      WantedOnce(front, types);
      forall row | row in Wanted(front, types) ensures row.id != last.id {
        WantedRows(front, types, row);
      }
    }
  }

  lemma AppendOnce(a: seq<Row>, b: seq<Row>)
    requires DistinctIds(a) && DistinctIds(b)
    requires forall x, y | x in a && y in b :: x.id != y.id
    ensures DistinctIds(a + b)
  {
    forall i, j | 0 <= i < j < |a + b| ensures (a + b)[i].id != (a + b)[j].id {
      if i < |a| && j >= |a| {
        assert a[i] in a && b[j - |a|] in b;
      }
    }
  }

  lemma {:induction false} VisitedOnce(snap: Snapshot, db: Tables, projects: seq<string>, types: Option<set<string>>)
    requires SnapshotOf(snap, db) && Distinct(projects) && forall p | p in projects :: p in db.projects
    ensures DistinctIds(VisitsOf(snap, projects, types))
  {
    if projects != [] {
      var front, last := projects[..|projects| - 1], projects[|projects| - 1];
      VisitedOnce(snap, db, front, types);
      WantedOnce(RowsOf(snap, last), types);
      forall x, y | x in VisitsOf(snap, front, types) && y in Wanted(RowsOf(snap, last), types) ensures x.id != y.id {
        VisitedRows(snap, front, types, x);
        WantedRows(RowsOf(snap, last), types, y);
        var p :| p in front && x in RowsOf(snap, p);
        assert x.source.projectId == p && y.source.projectId == last && p != last;
      }
      AppendOnce(VisitsOf(snap, front, types), Wanted(RowsOf(snap, last), types));
    }
  }

  /** One pass over a snapshot visits each enabled source of the wanted types once, and no other. */
  lemma EachSourceOnce(snap: Snapshot, db: Tables, types: Option<set<string>>)
    requires SnapshotOf(snap, db) && References(db)
    ensures DistinctIds(Visits(snap, types))
    ensures forall id | id in db.sources ::
              (Row(id, db.sources[id]) in Visits(snap, types) <==>
                 db.sources[id].enabled && (types.Some? ==> db.sources[id].kind in types.value))
    ensures forall row | row in Visits(snap, types) :: row.id in db.sources && row.source == db.sources[row.id]
  {
    var ps := snap.projects.value;
    VisitedOnce(snap, db, ps, types);
    forall row ensures row in Visits(snap, types) <==>
                       && row.source.enabled && (types.Some? ==> row.source.kind in types.value)
                       && exists p :: p in ps && row in RowsOf(snap, p)
    {
      VisitedRows(snap, ps, types, row);
    }
    forall id | id in db.sources ensures exists p :: p in ps && Row(id, db.sources[id]) in RowsOf(snap, p) {
      var p := db.sources[id].projectId;
      assert p in ps && Row(id, db.sources[id]) in RowsOf(snap, p);
    }
  }

  /**
   * The two ticks on one snapshot share no source, and together visit every enabled source whose type
   * has a collector.
   */
  lemma TicksPartitionTheSources(snap: Snapshot, db: Tables)
    requires SnapshotOf(snap, db) && References(db)
    ensures forall x, y | x in Visits(snap, Some(CSP_TYPES)) && y in Visits(snap, Some(KUBERNETES_TYPES)) ::
            x.id != y.id
    ensures forall id | id in db.sources && db.sources[id].enabled
            && db.sources[id].kind in ["aws_account", "azure_subscription", "gcp_project", "kubernetes"] ::
              Row(id, db.sources[id]) in Visits(snap, Some(CSP_TYPES)) + Visits(snap, Some(KUBERNETES_TYPES))
    ensures forall x | x in Visits(snap, Some(CSP_TYPES)) ::
              x.source.enabled && x.source.kind in ["aws_account", "azure_subscription", "gcp_project"]
    ensures forall y | y in Visits(snap, Some(KUBERNETES_TYPES)) :: y.source.enabled && y.source.kind == "kubernetes"
  {
    EachSourceOnce(snap, db, Some(CSP_TYPES));
    EachSourceOnce(snap, db, Some(KUBERNETES_TYPES));
    forall x | x in Visits(snap, Some(CSP_TYPES)) ensures x.source.enabled && x.source.kind in CSP_TYPES {
      VisitedRows(snap, snap.projects.value, Some(CSP_TYPES), x);
    }
    forall y | y in Visits(snap, Some(KUBERNETES_TYPES)) ensures y.source.enabled && y.source.kind in KUBERNETES_TYPES {
      VisitedRows(snap, snap.projects.value, Some(KUBERNETES_TYPES), y);
    }
    assert CSP_TYPES !! KUBERNETES_TYPES by {
      assert |"aws_account"| == 11 && |"azure_subscription"| == 18 && |"gcp_project"| == 11 && |"kubernetes"| == 10;
    }
    forall x, y | x in Visits(snap, Some(CSP_TYPES)) && y in Visits(snap, Some(KUBERNETES_TYPES)) ensures x.id != y.id {
      VisitedRows(snap, snap.projects.value, Some(CSP_TYPES), x);
      VisitedRows(snap, snap.projects.value, Some(KUBERNETES_TYPES), y);
    }
  }
}
