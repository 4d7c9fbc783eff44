/** The value entities of internal/models and internal/store/store.go. */
module Model {
  import opened Basics

  datatype CostRecord = CostRecord(
    id: string,
    projectId: string,
    costSourceId: string,
    provider: string,
    providerId: string,
    accountId: string,
    accountName: string,
    service: string,
    category: string,
    startTime: Time,
    endTime: Time,
    listCost: real,
    netCost: real,
    amortizedCost: real,
    amortizedNetCost: real,
    currency: string,
    labels: map<string, string>,
    kubernetesPercent: real)

  /** An unset field ("" or the zero instant) does not restrict the query. */
  datatype CostQuery = CostQuery(
    projectId: string,
    costSourceId: string,
    provider: string,
    service: string,
    startTime: Time,
    endTime: Time,
    limit: int,
    offset: int)

  /** What a record must satisfy to be selected, field by field. */
  predicate Matches(q: CostQuery, r: CostRecord) {
    && (q.projectId != "" ==> r.projectId == q.projectId)
    && (q.costSourceId != "" ==> r.costSourceId == q.costSourceId)
    && (q.provider != "" ==> r.provider == q.provider)
    && (q.service != "" ==> r.service == q.service)
    && (q.startTime != ZERO_TIME ==> r.startTime >= q.startTime)
    && (q.endTime != ZERO_TIME ==> r.endTime <= q.endTime)
  }

  /** The sum of a column over a list of records. */
  function ColumnSum(rs: seq<CostRecord>, column: CostRecord -> real): real {
    if rs == [] then 0.0 else ColumnSum(rs[..|rs| - 1], column) + column(rs[|rs| - 1])
  }
}
