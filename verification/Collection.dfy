/**
 * The Kubernetes collector's normalising loop (internal/collector/kubernetes/kubernetes.go), and one
 * pass of collectSource (internal/collector/scheduler.go).
 */
module Collection {
  import opened Basics
  import opened Model
  import opened Tables
  import opened Store
  import Allocations

  const DAY: Time := 24 * 60 * 60 * 1_000_000_000

  /** collector.TimeWindow */
  datatype Window = Window(start: Time, end: Time)

  // ---------------------------------------------------------------- the Kubernetes collector

  /** The record of one namespace; its id is assigned on insertion. */
  function NamespaceRecord(
    id: string, source: CostSource, cluster: string, w: Window, ns: string, cost: real): CostRecord {
    CostRecord(id := "", projectId := source.projectId, costSourceId := id,
               provider := "kubernetes", providerId := cluster + "/" + ns,
               accountId := cluster, accountName := cluster,
               service := "Kubernetes/" + ns, category := "Compute",
               startTime := w.start, endTime := w.end,
               listCost := cost, netCost := cost, amortizedCost := cost, amortizedNetCost := 0.0,
               currency := "USD", labels := map["namespace" := ns, "cluster" := cluster], kubernetesPercent := 1.0)
  }

  /** The records of one data set of the response, one for each namespace. */
  function RecordsOfSet(
    id: string, source: CostSource, cluster: string, w: Window, costs: map<string, real>): set<CostRecord> {
    set ns | ns in costs :: NamespaceRecord(id, source, cluster, w, ns, costs[ns])
  }

  function RecordsOf(
    id: string, source: CostSource, cluster: string, w: Window, data: seq<map<string, real>>): multiset<CostRecord> {
    if data == [] then multiset{}
    else
      RecordsOf(id, source, cluster, w, data[..|data| - 1])
      + multiset(RecordsOfSet(id, source, cluster, w, data[|data| - 1]))
  }

  /** Everything that the response charges. */
  ghost function ResponseTotal(data: seq<map<string, real>>): real {
    if data == [] then 0.0 else ResponseTotal(data[..|data| - 1]) + Allocations.Sum(data[|data| - 1])
  }

  /** The list, net and amortized costs each add up to the total, and no amortized net cost is set. */
  ghost predicate CostsAddUpTo(records: seq<CostRecord>, total: real) {
    && ColumnSum(records, (r: CostRecord) => r.listCost) == total
    && ColumnSum(records, (r: CostRecord) => r.netCost) == total
    && ColumnSum(records, (r: CostRecord) => r.amortizedCost) == total
    && ColumnSum(records, (r: CostRecord) => r.amortizedNetCost) == 0.0
  }

  lemma OneMoreCost(records: seq<CostRecord>, total: real, r: CostRecord, cost: real)
    requires CostsAddUpTo(records, total)
    requires r.listCost == r.netCost == r.amortizedCost == cost && r.amortizedNetCost == 0.0
    ensures CostsAddUpTo(records + [r], total + cost)
  {
    assert (records + [r])[..|records|] == records;
  }

  /** The normalising loop of Collect, over namespaces in any order. */
  method Collect(id: string, source: CostSource, cluster: string, w: Window, data: seq<map<string, real>>)
    returns (records: seq<CostRecord>)
    ensures multiset(records) == RecordsOf(id, source, cluster, w, data)
    ensures CostsAddUpTo(records, ResponseTotal(data))
  {
    records := [];
    for i := 0 to |data|
      invariant multiset(records) == RecordsOf(id, source, cluster, w, data[..i])
      invariant CostsAddUpTo(records, ResponseTotal(data[..i]))
    {
      records := CollectSet(id, source, cluster, w, data[i], records, ResponseTotal(data[..i]));
      assert data[..i + 1][..i] == data[..i];
    }
    assert data[..|data|] == data;
  }

  /** The loop over one data set. */
  method CollectSet(
    id: string, source: CostSource, cluster: string, w: Window, costs: map<string, real>,
    before: seq<CostRecord>, ghost total: real)
    returns (records: seq<CostRecord>)
    requires CostsAddUpTo(before, total)
    ensures multiset(records) == multiset(before) + multiset(RecordsOfSet(id, source, cluster, w, costs))
    ensures CostsAddUpTo(records, total + Allocations.Sum(costs))
  {
    records := before;
    var rest := costs;
    while rest != map[]
      invariant rest.Keys <= costs.Keys && (forall ns | ns in rest :: rest[ns] == costs[ns])
      invariant multiset(records)
             == multiset(before) + multiset(set ns | ns in costs && ns !in rest ::
                  NamespaceRecord(id, source, cluster, w, ns, costs[ns]))
      invariant CostsAddUpTo(records, total + Allocations.Sum(costs) - Allocations.Sum(rest))
      decreases |rest|
    {
      var ns :| ns in rest;
      var r := NamespaceRecord(id, source, cluster, w, ns, rest[ns]);
      OneMoreNamespace(id, source, cluster, w, costs, rest.Keys, ns);
      OneMoreCost(records, total + Allocations.Sum(costs) - Allocations.Sum(rest), r, rest[ns]);
      Allocations.SumByAnyKey(rest, ns);
      assert (rest - {ns}).Keys == rest.Keys - {ns};
      records := records + [r];
      rest := rest - {ns};
    }
    assert (set ns | ns in costs && ns !in rest :: NamespaceRecord(id, source, cluster, w, ns, costs[ns]))
        == RecordsOfSet(id, source, cluster, w, costs);
  }

  /** Different namespaces give different records. */
  lemma OneMoreNamespace(
    id: string, source: CostSource, cluster: string, w: Window, costs: map<string, real>, rest: set<string>, ns: string)
    requires ns in rest && rest <= costs.Keys
    ensures var done := set n | n in costs && n !in rest :: NamespaceRecord(id, source, cluster, w, n, costs[n]);
            var more := set n | n in costs && n !in rest - {ns} :: NamespaceRecord(id, source, cluster, w, n, costs[n]);
            && NamespaceRecord(id, source, cluster, w, ns, costs[ns]) !in done
            && multiset(more) == multiset(done) + multiset{NamespaceRecord(id, source, cluster, w, ns, costs[ns])}
  {
    var r := NamespaceRecord(id, source, cluster, w, ns, costs[ns]);
    var done := set n | n in costs && n !in rest :: NamespaceRecord(id, source, cluster, w, n, costs[n]);
    var more := set n | n in costs && n !in rest - {ns} :: NamespaceRecord(id, source, cluster, w, n, costs[n]);
    assert forall n | n in costs && n != ns ::
      NamespaceRecord(id, source, cluster, w, n, costs[n]).labels["namespace"] == n;
    assert r.labels["namespace"] == ns;
    assert more == done + {r};
  }

  /** What the scheduler may rely on for every record it gets. */
  predicate BelongsTo(r: CostRecord, id: string, source: CostSource, w: Window) {
    r.projectId == source.projectId && r.costSourceId == id && r.startTime == w.start && r.endTime == w.end
  }

  predicate Normalised(batch: seq<CostRecord>, id: string, source: CostSource, w: Window) {
    forall r | r in batch :: BelongsTo(r, id, source, w)
  }

  /** Every collected record is charged to the source, its project and exactly the window asked for. */
  lemma {:induction false} CollectedBelong(
    id: string, source: CostSource, cluster: string, w: Window, data: seq<map<string, real>>, r: CostRecord)
    requires r in RecordsOf(id, source, cluster, w, data)
    ensures BelongsTo(r, id, source, w)
  {
    if data != [] && r !in RecordsOfSet(id, source, cluster, w, data[|data| - 1]) {
      CollectedBelong(id, source, cluster, w, data[..|data| - 1], r);
    }
  }

  /** What the record of a namespace says. */
  ghost predicate DescribesNamespace(r: CostRecord, cluster: string, ns: string, total: real) {
    && r.listCost == total && r.netCost == total && r.amortizedCost == total && r.amortizedNetCost == 0.0
    && r.provider == "kubernetes" && r.providerId == cluster + "/" + ns && r.service == "Kubernetes/" + ns
    && r.accountId == cluster && r.accountName == cluster && r.category == "Compute"
    && r.currency == "USD" && r.kubernetesPercent == 1.0 && r.id == ""
    && r.labels == map["namespace" := ns, "cluster" := cluster]
  }

  ghost predicate NamespaceOf(data: seq<map<string, real>>, i: int, ns: string) {
    0 <= i < |data| && ns in data[i]
  }

  /** Every collected record describes a namespace of some data set, with that namespace's total. */
  lemma {:induction false} CollectedDescribe(
    id: string, source: CostSource, cluster: string, w: Window, data: seq<map<string, real>>, r: CostRecord)
    requires r in RecordsOf(id, source, cluster, w, data)
    ensures exists i, ns :: NamespaceOf(data, i, ns) && DescribesNamespace(r, cluster, ns, data[i][ns])
  {
    var n := |data| - 1;
    if r in RecordsOfSet(id, source, cluster, w, data[n]) {
      var ns :| ns in data[n] && r == NamespaceRecord(id, source, cluster, w, ns, data[n][ns]);
      assert NamespaceOf(data, n, ns);
    } else {
      CollectedDescribe(id, source, cluster, w, data[..n], r);
      var i, ns :| NamespaceOf(data[..n], i, ns) && DescribesNamespace(r, cluster, ns, data[..n][i][ns]);
      assert NamespaceOf(data, i, ns);
    }
  }

  /** And every namespace of every data set has its record. */
  lemma {:induction false} NamespacesAreCollected(
    id: string, source: CostSource, cluster: string, w: Window, data: seq<map<string, real>>, i: int, ns: string)
    requires NamespaceOf(data, i, ns)
    ensures exists r :: r in RecordsOf(id, source, cluster, w, data)
                        && DescribesNamespace(r, cluster, ns, data[i][ns]) && BelongsTo(r, id, source, w)
  {
    var n := |data| - 1;
    if i == n {
      var r := NamespaceRecord(id, source, cluster, w, ns, data[n][ns]);
      assert r in RecordsOfSet(id, source, cluster, w, data[n]);
      assert r in RecordsOf(id, source, cluster, w, data);
    } else {
      NamespacesAreCollected(id, source, cluster, w, data[..n], i, ns);
    }
  }

  // ---------------------------------------------------------------- one pass

  /** The clock readings of a pass and the faults it meets. */
  datatype PassInput = PassInput(
    startSample: Time, endSample: Time, writeSample: Time, insertFails: bool, writeFails: bool)

  /** Where the window of a pass starts: at the listed watermark, or a day before now without one. */
  function StartOf(watermark: Option<Time>, clock: Time): Time {
    match watermark
    case Some(t) => t
    case None => clock - DAY
  }

  function WindowOf(source: CostSource, input: PassInput): Window {
    Window(StartOf(source.lastCollectedAt, input.startSample), input.endSample)
  }

  /** Nanoseconds: the first window of a source goes back 24 hours, later ones to the watermark. */
  lemma WindowStarts(source: CostSource, input: PassInput)
    ensures source.lastCollectedAt == None ==> WindowOf(source, input).start == input.startSample - 86_400_000_000_000
    ensures source.lastCollectedAt.Some? ==> WindowOf(source, input).start == source.lastCollectedAt.value
    ensures WindowOf(source, input).end == input.endSample
  {
  }

  /** How a pass ends: with which event, if any. */
  datatype PassEvent = NoCollector | Failed | NotStored | Complete(records: nat)

  /** The store after a pass whose collector answered with these (identified) records, or an error. */
  function AfterPass(
    db: Tables, id: string, collected: Option<seq<CostRecord>>, input: PassInput): (Tables, PassEvent) {
    match collected
    case None => (db, Failed)
    case Some(batch) =>
      var (d, stored) := if batch == [] then (db, true)
                         else if input.insertFails then (db, false)
                         else Exec(db, InsertCostRecords(batch));
      if !stored then (d, NotStored)
      else ((if input.writeFails then d else WithCollectedAt(d, id, input.writeSample)), Complete(|batch|))
  }

  /** The collector a pass calls: whether it exists, and its answer for the window. */
  datatype Answer = Answer(registered: bool, records: Window -> Option<seq<CostRecord>>, ids: nat -> string)

  function Identified(answer: Answer, w: Window): Option<seq<CostRecord>> {
    match answer.records(w)
    case None => None
    case Some(rs) => Some(Stamped(rs, seq(|rs|, i requires 0 <= i < |rs| => answer.ids(i))))
  }

  /** collectSource */
  method CollectSource(store: SQLStore, id: string, source: CostSource, answer: Answer, input: PassInput)
    returns (event: PassEvent)
    modifies store
    ensures !answer.registered ==> store.Contents() == old(store.Contents()) && event == NoCollector
    ensures answer.registered ==>
              (store.Contents(), event)
              == AfterPass(old(store.Contents()), id, Identified(answer, WindowOf(source, input)), input)
  {
    if !answer.registered {
      return NoCollector;
    }
    var window := Window(input.startSample - DAY, input.endSample);
    if source.lastCollectedAt.Some? {
      window := window.(start := source.lastCollectedAt.value);
    }
    var collected := answer.records(window);
    if collected.None? {
      return Failed;
    }
    var records := collected.value;
    var ids := seq(|records|, i requires 0 <= i < |records| => answer.ids(i));
    if |records| > 0 {
      if input.insertFails {
        return NotStored;
      }
      var ok := store.InsertCostRecords(records, ids);
      if !ok {
        return NotStored;
      }
    }
    if !input.writeFails {
      store.UpdateCostSourceCollectedAt(id, input.writeSample);
    }
    return Complete(|records|);
  }

  /**
   * A pass that fails to collect or to store leaves the store as it was. A complete pass stored its
   * whole batch and nothing else before it moved the watermark, which it moved to its last reading.
   */
  lemma PassIsAllOrNothing(db: Tables, id: string, collected: Option<seq<CostRecord>>, input: PassInput)
    ensures var (d, event) := AfterPass(db, id, collected, input);
            if event.Complete? then
              && collected.Some? && event.records == |collected.value| && InsertAll(db, collected.value).Some?
              && var stored := InsertAll(db, collected.value).value;
              && GrewBy(db, stored, collected.value)
              && d == if input.writeFails || id !in db.sources then stored
                      else
                        var moved := db.sources[id].(lastCollectedAt := Some(input.writeSample));
                        stored.(sources := db.sources[id := moved])
            else d == db
    ensures var event := AfterPass(db, id, collected, input).1;
            && (event.Complete? <==>
                  && collected.Some?
                  && (collected.value == [] || (!input.insertFails && Insertable(db, collected.value))))
            && (event.Failed? <==> collected == None) && !event.NoCollector?
  {
    if collected.Some? {
      BatchIsExecuted(db, collected.value);
      BatchIsAllOrNothing(db, collected.value);
    }
  }
}
