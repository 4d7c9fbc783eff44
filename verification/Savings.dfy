/** The cost breakdown plugin (plugins/costbreakdown/plugin.go): idle resources and what they could save. */
module Savings {
  import opened Basics
  import opened Allocations

  datatype Severity = Low | Medium | High

  datatype Recommendation = Recommendation(
    namespace: string, resourceType: string, requested: real, used: real, savings: real, severity: Severity)

  /** An event carries the recommendations and thereby their number. */
  datatype Event = Event(topic: string, payload: seq<Recommendation>)

  // ---------------------------------------------------------------- what is recommended

  /** Less than a fifth of what was requested is used, and something is. */
  predicate Idle(requested: real, used: real) {
    requested > 0.0 && used > 0.0 && used / requested < 0.2
  }

  function SeverityOf(savings: real): Severity {
    if savings > 50.0 then High else if savings > 10.0 then Medium else Low
  }

  function Saved(cost: real, requested: real, used: real, share: real): real
    requires requested > 0.0
  {
    cost * (1.0 - used / requested) * share
  }

  /** The recommendation for one resource, if it is idle. */
  function Recommended(a: Allocation, kind: string, requested: real, used: real, share: real): seq<Recommendation> {
    if !Idle(requested, used) then []
    else
      var savings := Saved(NumberOrZero(a, "totalCost"), requested, used, share);
      [Recommendation(TextOrEmpty(a, "name"), kind, requested, used, savings, SeverityOf(savings))]
  }

  function Advice(
    a: Allocation, kind: string, requestField: string, usageField: string, share: real): seq<Recommendation> {
    Recommended(a, kind, NumberOrZero(a, requestField), NumberOrZero(a, usageField), share)
  }

  function CpuAdvice(a: Allocation): seq<Recommendation> {
    Advice(a, "cpu", "cpuCoreRequestAverage", "cpuCoreUsageAverage", 0.8)
  }

  function MemoryAdvice(a: Allocation): seq<Recommendation> {
    Advice(a, "memory", "ramByteRequestAverage", "ramByteUsageAverage", 0.2)
  }

  function AllAdvice(allocations: seq<Allocation>): seq<Recommendation> {
    if allocations == [] then []
    else
      var a := allocations[|allocations| - 1];
      AllAdvice(allocations[..|allocations| - 1]) + CpuAdvice(a) + MemoryAdvice(a)
  }

  function Claimed(recs: seq<Recommendation>): real {
    if recs == [] then 0.0 else Claimed(recs[..|recs| - 1]) + recs[|recs| - 1].savings
  }

  function CostOf(allocations: seq<Allocation>): real {
    if allocations == [] then 0.0
    else CostOf(allocations[..|allocations| - 1]) + NumberOrZero(allocations[|allocations| - 1], "totalCost")
  }

  // ---------------------------------------------------------------- the plugin

  class Plugin {
    var recommendations: seq<Recommendation>
    var events: seq<Event>

    constructor ()
      ensures recommendations == [] && events == []
    {
      recommendations, events := [], [];
    }

    /** Without allocations nothing changes; with them the recommendations are replaced and, if any, offered. */
    method DetectIdle(response: Option<seq<Window>>) returns (ghost allocations: seq<Allocation>)
      modifies this
      ensures response == None ==> recommendations == old(recommendations) && events == old(events)
      ensures response.Some? ==>
                && multiset(allocations) == Listed(response.value)
                && recommendations == AllAdvice(allocations)
                && events == if recommendations == [] then old(events)
                             else Offered(old(events), Event("cost.idle.detected", recommendations))
      ensures response.Some? && NoNegativeCost(response.value) ==>
              0.0 <= Claimed(recommendations) <= Charged(response.value)
    {
      if response == None {
        return [];
      }
      var list := FetchAllocations(response.value);
      allocations := list;
      var recs: seq<Recommendation> := [];
      for i := 0 to |list|
        invariant recommendations == old(recommendations) && events == old(events)
        invariant recs == AllAdvice(list[..i])
      {
        var a := list[i];
        assert list[..i + 1][..i] == list[..i];
        var cpuReq, cpuUsed := NumberOrZero(a, "cpuCoreRequestAverage"), NumberOrZero(a, "cpuCoreUsageAverage");
        recs := Advise(recs, a, "cpu", cpuReq, cpuUsed, 0.8);
        var ramReq, ramUsed := NumberOrZero(a, "ramByteRequestAverage"), NumberOrZero(a, "ramByteUsageAverage");
        recs := Advise(recs, a, "memory", ramReq, ramUsed, 0.2);
      }
      assert list[..|list|] == list;
      recommendations := recs;
      if |recs| > 0 && |events| < EVENT_BUFFER {
        events := events + [Event("cost.idle.detected", recs)];
      }
      if NoNegativeCost(response.value) {
        NeverOverclaimed(list, response.value);
      }
    }
  }

  method Advise(recs: seq<Recommendation>, a: Allocation, kind: string, requested: real, used: real, share: real)
    returns (more: seq<Recommendation>)
    ensures more == recs + Recommended(a, kind, requested, used, share)
  {
    more := recs;
    assert recs + [] == recs;
    if requested > 0.0 && used > 0.0 && used / requested < 0.2 {
      var totalCost := NumberOrZero(a, "totalCost");
      var savings := totalCost * (1.0 - used / requested) * share;
      assert savings == Saved(totalCost, requested, used, share);
      var severity := Low;
      if savings > 10.0 {
        severity := Medium;
      }
      if savings > 50.0 {
        severity := High;
      }
      more := more + [Recommendation(TextOrEmpty(a, "name"), kind, requested, used, savings, severity)];
    }
  }

  // ---------------------------------------------------------------- the allocations of a response

  /** The allocations of a window, each as often as it occurs. */
  ghost function Values(w: Window): multiset<Allocation> {
    if w == map[] then multiset{}
    else
      var k :| k in w;
      Values(w - {k}) + multiset{w[k]}
  }

  lemma {:induction false} ValuesByAnyKey(w: Window, k: string)
    requires k in w
    ensures Values(w) == Values(w - {k}) + multiset{w[k]}
    decreases |w|
  {
    var j :| j in w && Values(w) == Values(w - {j}) + multiset{w[j]};
    if j != k {
      ValuesByAnyKey(w - {j}, k);
      ValuesByAnyKey(w - {k}, j);
      Apart(w, j, k);
    }
  }

  lemma Apart(w: Window, j: string, k: string)
    requires j in w && k in w && j != k
    ensures w - {j} - {k} == w - {k} - {j}
    ensures k in w - {j} && (w - {j})[k] == w[k] && j in w - {k} && (w - {k})[j] == w[j]
  {
  }

  ghost function Listed(data: seq<Window>): multiset<Allocation> {
    if data == [] then multiset{} else Listed(data[..|data| - 1]) + Values(data[|data| - 1])
  }

  /** The loops of fetchAllocations: every allocation of every window, in whatever order the maps are walked. */
  method FetchAllocations(data: seq<Window>) returns (list: seq<Allocation>)
    ensures multiset(list) == Listed(data) && CostOf(list) == Charged(data)
  {
    list := [];
    for i := 0 to |data|
      invariant multiset(list) == Listed(data[..i]) && CostOf(list) == Charged(data[..i])
    {
      list := ListWindow(list, data[i]);
      assert data[..i + 1][..i] == data[..i];
    }
    assert data[..|data|] == data;
  }

  method ListWindow(before: seq<Allocation>, window: Window) returns (list: seq<Allocation>)
    ensures multiset(list) == multiset(before) + Values(window)
    ensures CostOf(list) == CostOf(before) + Sum(Charges(window))
  {
    list := before;
    var rest := window;
    while rest != map[]
      invariant multiset(before) + Values(window) == multiset(list) + Values(rest)
      invariant CostOf(before) + Sum(Charges(window)) == CostOf(list) + Sum(Charges(rest))
      decreases |rest|
    {
      var k :| k in rest;
      ValuesByAnyKey(rest, k);
      WithoutOne(rest, k);
      ListedNext(list, rest[k], Values(rest - {k}));
      list := list + [rest[k]];
      rest := rest - {k};
    }
    assert Charges(rest) == map[];
  }

  lemma ListedNext(list: seq<Allocation>, a: Allocation, others: multiset<Allocation>)
    ensures multiset(list + [a]) + others == multiset(list) + (others + multiset{a})
    ensures CostOf(list + [a]) == CostOf(list) + NumberOrZero(a, "totalCost")
  {
    assert (list + [a])[..|list|] == list;
  }

  lemma WithoutOne(rest: Window, k: string)
    requires k in rest
    ensures Sum(Charges(rest)) == Sum(Charges(rest - {k})) + NumberOrZero(rest[k], "totalCost")
    ensures |rest - {k}| < |rest|
  {
    assert Charges(rest - {k}) == Charges(rest) - {k};
    SumWithout(Charges(rest), k);
    assert (rest - {k}).Keys == rest.Keys - {k};
  }

  lemma {:induction false} ValuesFrom(w: Window, a: Allocation)
    requires a in Values(w)
    ensures exists ns | ns in w :: w[ns] == a
    decreases |w|
  {
    var k :| k in w && Values(w) == Values(w - {k}) + multiset{w[k]};
    if a != w[k] {
      ValuesFrom(w - {k}, a);
      var ns :| ns in w - {k} && (w - {k})[ns] == a;
      assert w[ns] == a;
    }
  }

  /** Nothing is listed that no window holds. */
  lemma {:induction false} ListedFrom(data: seq<Window>, a: Allocation)
    requires a in Listed(data)
    ensures exists w, ns | w in data && ns in w :: w[ns] == a
  {
    var front, last := data[..|data| - 1], data[|data| - 1];
    if a in Values(last) {
      ValuesFrom(last, a);
      var ns :| ns in last && last[ns] == a;
      assert last in data && ns in last;
    } else {
      ListedFrom(front, a);
      var w, ns :| w in front && ns in w && w[ns] == a;
      assert w in data && ns in w;
    }
  }

  // ---------------------------------------------------------------- never more than the cost

  ghost predicate NoNegativeCost(data: seq<Window>) {
    forall w, ns | w in data && ns in w :: NumberOrZero(w[ns], "totalCost") >= 0.0
  }

  /** An idle resource is claimed for between four and five fifths of its share of the cost. */
  lemma SavedBetween(cost: real, requested: real, used: real, share: real)
    requires cost >= 0.0 && share >= 0.0 && Idle(requested, used)
    ensures 0.8 * share * cost <= Saved(cost, requested, used, share) <= share * cost
    ensures cost * share > 0.0 ==> 0.8 * share * cost < Saved(cost, requested, used, share) < share * cost
  {
    var idle := 1.0 - used / requested;
    var part := cost * share;
    assert used / requested * requested == used;
    Regrouped(cost, idle, share);
    assert Saved(cost, requested, used, share) == idle * part;
    assert 0.8 < idle < 1.0;
    Scaled(cost, share);
    Between(idle, part);
  }

  lemma Scaled(cost: real, share: real)
    ensures share * cost == cost * share && 0.8 * share * cost == 0.8 * (cost * share)
  {
  }

  lemma Regrouped(cost: real, idle: real, share: real)
    ensures cost * idle * share == idle * (cost * share)
  {
  }

  lemma Between(idle: real, part: real)
    requires 0.8 < idle < 1.0 && part >= 0.0
    ensures 0.8 * part <= idle * part <= part
    ensures part > 0.0 ==> 0.8 * part < idle * part < part
  {
    assert (idle - 0.8) * part >= 0.0 && (1.0 - idle) * part >= 0.0;
    if part > 0.0 {
      assert (idle - 0.8) * part > 0.0 && (1.0 - idle) * part > 0.0;
    }
  }

  /** CPU savings lie between 64% and 80% of an allocation's cost, memory savings between 16% and 20%. */
  lemma AdviceBounds(a: Allocation)
    requires NumberOrZero(a, "totalCost") >= 0.0
    ensures var cost := NumberOrZero(a, "totalCost");
            && (forall r | r in CpuAdvice(a) :: 0.64 * cost <= r.savings <= 0.8 * cost)
            && (forall r | r in MemoryAdvice(a) :: 0.16 * cost <= r.savings <= 0.2 * cost)
  {
    var cost := NumberOrZero(a, "totalCost");
    var cpuReq, cpuUsed := NumberOrZero(a, "cpuCoreRequestAverage"), NumberOrZero(a, "cpuCoreUsageAverage");
    var ramReq, ramUsed := NumberOrZero(a, "ramByteRequestAverage"), NumberOrZero(a, "ramByteUsageAverage");
    if Idle(cpuReq, cpuUsed) {
      SavedBetween(cost, cpuReq, cpuUsed, 0.8);
    }
    if Idle(ramReq, ramUsed) {
      SavedBetween(cost, ramReq, ramUsed, 0.2);
    }
  }

  lemma {:induction false} ClaimedConcat(a: seq<Recommendation>, b: seq<Recommendation>)
    ensures Claimed(a + b) == Claimed(a) + Claimed(b)
  {
    if b == [] {
      assert a + b == a;
    } else {
      assert (a + b)[..|a + b| - 1] == a + b[..|b| - 1];
      ClaimedConcat(a, b[..|b| - 1]);
    }
  }

  lemma ClaimedOne(a: Allocation)
    requires NumberOrZero(a, "totalCost") >= 0.0
    ensures 0.0 <= Claimed(CpuAdvice(a)) <= 0.8 * NumberOrZero(a, "totalCost")
    ensures 0.0 <= Claimed(MemoryAdvice(a)) <= 0.2 * NumberOrZero(a, "totalCost")
  {
    AdviceBounds(a);
    ClaimedAtMostOne(CpuAdvice(a));
    ClaimedAtMostOne(MemoryAdvice(a));
  }

  lemma ClaimedAtMostOne(recs: seq<Recommendation>)
    requires |recs| <= 1
    ensures Claimed(recs) == if recs == [] then 0.0 else recs[0].savings
  {
    if recs != [] {
      assert Claimed(recs[..0]) == 0.0;
    }
  }

  /** All the recommendations together claim no more than all the allocations cost. */
  lemma {:induction false} ClaimsWithinCost(allocations: seq<Allocation>)
    requires forall a | a in allocations :: NumberOrZero(a, "totalCost") >= 0.0
    ensures 0.0 <= Claimed(AllAdvice(allocations)) <= CostOf(allocations)
  {
    if allocations != [] {
      var front, last := allocations[..|allocations| - 1], allocations[|allocations| - 1];
      ClaimsWithinCost(front);
      ClaimedConcat(AllAdvice(front), CpuAdvice(last));
      ClaimedConcat(AllAdvice(front) + CpuAdvice(last), MemoryAdvice(last));
      ClaimedOne(last);
    }
  }

  /** What is claimed for an allocation stays within its cost exactly when the cost is not negative. */
  lemma WithinCostIffNonNegative(a: Allocation)
    ensures Claimed(AllAdvice([a])) <= NumberOrZero(a, "totalCost") <==> NumberOrZero(a, "totalCost") >= 0.0
  {
    var cost := NumberOrZero(a, "totalCost");
    assert [a][..0] == [];
    assert AllAdvice([a]) == [] + CpuAdvice(a) + MemoryAdvice(a);
    ClaimedConcat(CpuAdvice(a), MemoryAdvice(a));
    assert [] + CpuAdvice(a) + MemoryAdvice(a) == CpuAdvice(a) + MemoryAdvice(a);
    if cost >= 0.0 {
      ClaimedOne(a);
    } else {
      Refunds(a, "cpu", "cpuCoreRequestAverage", "cpuCoreUsageAverage", 0.8);
      Refunds(a, "memory", "ramByteRequestAverage", "ramByteUsageAverage", 0.2);
    }
  }

  lemma Refunds(a: Allocation, kind: string, requestField: string, usageField: string, share: real)
    requires NumberOrZero(a, "totalCost") < 0.0 && share > 0.0
    ensures var claimed := Claimed(Advice(a, kind, requestField, usageField, share));
            if Advice(a, kind, requestField, usageField, share) == [] then claimed == 0.0
            else share * NumberOrZero(a, "totalCost") < claimed < 0.0
  {
    var cost := NumberOrZero(a, "totalCost");
    var requested, used := NumberOrZero(a, requestField), NumberOrZero(a, usageField);
    ClaimedAtMostOne(Advice(a, kind, requestField, usageField, share));
    if Idle(requested, used) {
      SavedBetween(-cost, requested, used, share);
      assert -cost * share > 0.0;
      assert Saved(-cost, requested, used, share) == -Saved(cost, requested, used, share);
    }
  }

  /** More savings never make a recommendation look less severe. */
  lemma SeverityRises(less: real, more: real)
    requires less <= more
    ensures SeverityOf(less) == High ==> SeverityOf(more) == High
    ensures SeverityOf(more) == Low ==> SeverityOf(less) == Low
  {
  }

  /** In whatever order the allocations of a response are listed, the claims stay within what it charges. */
  lemma NeverOverclaimed(list: seq<Allocation>, data: seq<Window>)
    requires multiset(list) == Listed(data) && CostOf(list) == Charged(data) && NoNegativeCost(data)
    ensures 0.0 <= Claimed(AllAdvice(list)) <= Charged(data)
  {
    forall a | a in list ensures NumberOrZero(a, "totalCost") >= 0.0 {
      assert a in multiset(list);
      ListedFrom(data, a);
    }
    ClaimsWithinCost(list);
  }

  // ---------------------------------------------------------------- when something is recommended

  lemma IdleInShares(requested: real, used: real)
    ensures Idle(requested, used) <==> requested > 0.0 && used > 0.0 && 5.0 * used < requested
  {
    if requested > 0.0 {
      FifthOf(used / requested, requested, used);
    }
  }

  lemma FifthOf(share: real, requested: real, used: real)
    requires requested > 0.0 && share * requested == used
    ensures share < 0.2 <==> 5.0 * used < requested
  {
    if share < 0.2 {
      assert (0.2 - share) * requested > 0.0;
    } else {
      assert (share - 0.2) * requested >= 0.0;
    }
    assert (0.2 - share) * requested == 0.2 * requested - used;
  }

  /** What a recommendation for a resource says, given the request, the use and the share of the cost. */
  ghost predicate Recommends(
    r: Recommendation, a: Allocation, kind: string, share: real, requested: real, used: real) {
    && r.resourceType == kind && r.requested == requested && r.used == used
    && r.namespace == (if "name" in a && a["name"].Text? then a["name"].text else "")
    && r.savings * requested == share * Field(a, "totalCost") * (requested - used)
    && (r.severity == High <==> r.savings > 50.0)
    && (r.severity == Low <==> r.savings <= 10.0)
  }

  /** The number in a field, 0 without one. */
  function Field(a: Allocation, field: string): real {
    if field in a && a[field].Number? then a[field].number else 0.0
  }

  /**
   * CPU is recommended for exactly when it was requested, is used, and less than a fifth of the request is;
   * memory likewise. There is one recommendation each, which says so.
   */
  lemma RecommendedIffIdle(a: Allocation)
    ensures var requested, used := Field(a, "cpuCoreRequestAverage"), Field(a, "cpuCoreUsageAverage");
            if requested > 0.0 && used > 0.0 && 5.0 * used < requested
            then |CpuAdvice(a)| == 1 && Recommends(CpuAdvice(a)[0], a, "cpu", 0.8, requested, used)
            else CpuAdvice(a) == []
    ensures var requested, used := Field(a, "ramByteRequestAverage"), Field(a, "ramByteUsageAverage");
            if requested > 0.0 && used > 0.0 && 5.0 * used < requested
            then |MemoryAdvice(a)| == 1 && Recommends(MemoryAdvice(a)[0], a, "memory", 0.2, requested, used)
            else MemoryAdvice(a) == []
  {
    AdviceOf(a, "cpu", "cpuCoreRequestAverage", "cpuCoreUsageAverage", 0.8);
    AdviceOf(a, "memory", "ramByteRequestAverage", "ramByteUsageAverage", 0.2);
  }

  lemma AdviceOf(a: Allocation, kind: string, requestField: string, usageField: string, share: real)
    ensures var requested, used := Field(a, requestField), Field(a, usageField);
            var advice := Advice(a, kind, requestField, usageField, share);
            if requested > 0.0 && used > 0.0 && 5.0 * used < requested
            then |advice| == 1 && Recommends(advice[0], a, kind, share, requested, used)
            else advice == []
  {
    var requested, used := Field(a, requestField), Field(a, usageField);
    IdleInShares(requested, used);
    if Idle(requested, used) {
      SavedInShares(Field(a, "totalCost"), requested, used, share);
    }
  }

  lemma SavedInShares(cost: real, requested: real, used: real, share: real)
    requires requested > 0.0
    ensures Saved(cost, requested, used, share) * requested == share * cost * (requested - used)
  {
    var u := used / requested;
    assert u * requested == used;
    assert (1.0 - u) * requested == requested - used;
    Shuffle(cost, 1.0 - u, share, requested);
  }

  lemma Shuffle(w: real, x: real, y: real, z: real)
    ensures w * x * y * z == y * w * (x * z)
  {
  }
}
