/** The budgets plugin (plugins/budgets/plugin.go): namespace spend, and how it stands against budgets. */
module Budgets {
  import opened Basics
  import opened Allocations
  import opened Calendar

  datatype Budget = Budget(namespace: string, monthlyBudget: real, warningPercent: real)

  datatype Level = Ok | Warning | Exceeded

  datatype BudgetStatus = BudgetStatus(
    namespace: string, monthlyBudget: real, currentSpend: real, utilization: real, status: Level, projectedEnd: real)

  /** An event carries what the status says. */
  datatype Event = Event(topic: string, payload: BudgetStatus)

  // ---------------------------------------------------------------- namespace spend

  /** What a namespace is charged over all windows. */
  function SpendOf(data: seq<Window>, ns: string): real {
    if data == [] then 0.0 else SpendOf(data[..|data| - 1], ns) + At(Charges(data[|data| - 1]), ns)
  }

  /** The namespaces that some window states a cost for. */
  function ChargedNamespaces(data: seq<Window>): set<string> {
    set w, ns | w in data && ns in Charges(w) :: ns
  }

  function SpendByNamespace(data: seq<Window>): map<string, real> {
    map ns | ns in ChargedNamespaces(data) :: SpendOf(data, ns)
  }

  lemma ChargedNext(data: seq<Window>, w: Window)
    ensures ChargedNamespaces(data + [w]) == ChargedNamespaces(data) + Charges(w).Keys
  {
    assert forall v :: v in data + [w] <==> v in data || v == w;
  }

  lemma {:induction false} UnchargedIsZero(data: seq<Window>, ns: string)
    requires ns !in ChargedNamespaces(data)
    ensures SpendOf(data, ns) == 0.0
  {
    if data != [] {
      var front, last := data[..|data| - 1], data[|data| - 1];
      assert data == front + [last];
      ChargedNext(front, last);
      UnchargedIsZero(front, ns);
    }
  }

  lemma SpendNext(data: seq<Window>, w: Window)
    ensures SpendByNamespace(data + [w]) == Merged(SpendByNamespace(data), Charges(w))
  {
    ChargedNext(data, w);
    assert (data + [w])[..|data|] == data;
    forall ns | ns in ChargedNamespaces(data + [w])
      ensures SpendByNamespace(data + [w])[ns] == Merged(SpendByNamespace(data), Charges(w))[ns]
    {
      if ns !in ChargedNamespaces(data) {
        UnchargedIsZero(data, ns);
      }
    }
  }

  /** No cost is lost and none is counted twice: the spends add up to all that is charged. */
  lemma {:induction false} SpendIsConserved(data: seq<Window>)
    ensures Sum(SpendByNamespace(data)) == Charged(data)
  {
    if data == [] {
      assert SpendByNamespace(data) == map[];
    } else {
      var front, last := data[..|data| - 1], data[|data| - 1];
      assert data == front + [last];
      SpendIsConserved(front);
      SpendNext(front, last);
      SumMerged(SpendByNamespace(front), Charges(last));
    }
  }

  /** Spend adds up over windows, so that their order does not matter. */
  lemma {:induction false} SpendOfConcat(a: seq<Window>, b: seq<Window>, ns: string)
    ensures SpendOf(a + b, ns) == SpendOf(a, ns) + SpendOf(b, ns)
  {
    if b == [] {
      assert a + b == a;
    } else {
      assert (a + b)[..|a + b| - 1] == a + b[..|b| - 1];
      SpendOfConcat(a, b[..|b| - 1], ns);
    }
  }

  /** The merge loop of fetchNamespaceCosts; a failed or unreadable response is an error. */
  method FetchNamespaceCosts(response: Option<seq<Window>>) returns (costs: Option<map<string, real>>)
    ensures costs == match response case None => None case Some(data) => Some(SpendByNamespace(data))
  {
    if response == None {
      return None;
    }
    var data := response.value;
    var sums: map<string, real> := map[];
    for i := 0 to |data|
      invariant sums == SpendByNamespace(data[..i])
    {
      sums := AddWindow(sums, data[i]);
      SpendNext(data[..i], data[i]);
      assert data[..i + 1] == data[..i] + [data[i]];
    }
    assert data[..|data|] == data;
    return Some(sums);
  }

  /** The loop over one window, in whatever order it is walked. */
  method AddWindow(before: map<string, real>, window: Window) returns (sums: map<string, real>)
    ensures sums == Merged(before, Charges(window))
  {
    sums := before;
    var rest := window.Keys;
    while rest != {}
      invariant rest <= window.Keys
      invariant MergedBut(before, Charges(window), rest, sums)
    {
      var ns :| ns in rest;
      ghost var was := sums;
      match NumberAt(window[ns], "totalCost") {
        case Some(total) =>
          sums := sums[ns := At(sums, ns) + total];
        case None =>
      }
      rest := rest - {ns};
    }
    AllMerged(before, Charges(window), sums);
  }

  /** The charges but for those of the rest have been added up. */
  ghost predicate MergedBut(
    before: map<string, real>, charges: map<string, real>, rest: set<string>, sums: map<string, real>) {
    && sums.Keys == before.Keys + (charges.Keys - rest)
    && (forall k | k in sums :: sums[k] == At(before, k) + if k in rest then 0.0 else At(charges, k))
  }

  lemma AllMerged(before: map<string, real>, charges: map<string, real>, sums: map<string, real>)
    requires MergedBut(before, charges, {}, sums)
    ensures sums == Merged(before, charges)
  {
  }

  // ---------------------------------------------------------------- checking a budget

  function Utilization(b: Budget, spend: real): real {
    if b.monthlyBudget > 0.0 then spend / b.monthlyBudget else 0.0
  }

  function LevelOf(b: Budget, spend: real): Level {
    var u := Utilization(b, spend);
    if u >= 1.0 then Exceeded else if u >= b.warningPercent then Warning else Ok
  }

  /** The spend carried on to the end of a month of which some days have gone. */
  function Projected(day: int, days: int, spend: real): real
    requires days > 0
  {
    var progress := day as real / days as real;
    if progress > 0.0 then spend / progress else 0.0
  }

  function StatusOf(b: Budget, spend: real, day: int, days: int): BudgetStatus
    requires days > 0
  {
    BudgetStatus(b.namespace, b.monthlyBudget, spend, Utilization(b, spend), LevelOf(b, spend),
                 Projected(day, days, spend))
  }

  /** One status for each budget whose namespace was charged, in the order of the budgets. */
  function Statuses(budgets: seq<Budget>, costs: map<string, real>, day: int, days: int): seq<BudgetStatus>
    requires days > 0
  {
    if budgets == [] then []
    else
      var b := budgets[|budgets| - 1];
      Statuses(budgets[..|budgets| - 1], costs, day, days)
      + (if b.namespace in costs then [StatusOf(b, costs[b.namespace], day, days)] else [])
  }

  function AlertFor(s: BudgetStatus): Event {
    Event(if s.status == Exceeded then "budget.exceeded" else "budget.warning", s)
  }

  function Alerts(statuses: seq<BudgetStatus>): seq<Event> {
    if statuses == [] then []
    else
      var s := statuses[|statuses| - 1];
      Alerts(statuses[..|statuses| - 1]) + (if s.status == Ok then [] else [AlertFor(s)])
  }

  class Plugin {
    var budgets: seq<Budget>
    var statuses: seq<BudgetStatus>
    var events: seq<Event>

    constructor (budgets: Option<seq<Budget>>)
      ensures budgets.Some? ==> this.budgets == budgets.value
      ensures budgets == None ==> this.budgets == [Budget("default", 100.0, 0.8), Budget("kube-system", 200.0, 0.8)]
      ensures statuses == [] && events == []
    {
      this.budgets := match budgets
        case Some(list) => list
        case None => [Budget("default", 100.0, 0.8), Budget("kube-system", 200.0, 0.8)];
      statuses, events := [], [];
    }

    /** Without costs nothing changes; with them the statuses are replaced and alerts offered in order. */
    method CheckBudgets(response: Option<seq<Window>>, today: Date)
      requires OnCalendar(today)
      modifies this`statuses, this`events
      ensures response == None ==> statuses == old(statuses) && events == old(events)
      ensures response.Some? ==>
                && var costs := SpendByNamespace(response.value);
                statuses == Statuses(budgets, costs, today.day, MonthLength(today.year, today.month))
                && events == old(events) + Fitting(old(events), Alerts(statuses))
    {
      var costs := FetchNamespaceCosts(response);
      if costs == None {
        return;
      }
      DaysInMonthAreGregorian(today);
      CheckAll(costs.value, today.day, DaysInCurrentMonth(today));
    }

    method CheckAll(costs: map<string, real>, day: int, days: int)
      requires days > 0
      modifies this`statuses, this`events
      ensures statuses == Statuses(budgets, costs, day, days)
      ensures events == old(events) + Fitting(old(events), Alerts(statuses))
    {
      var list: seq<BudgetStatus> := [];
      for i := 0 to |budgets|
        invariant statuses == old(statuses)
        invariant list == Statuses(budgets[..i], costs, day, days)
        invariant events == old(events) + Fitting(old(events), Alerts(list))
      {
        var b := budgets[i];
        assert budgets[..i + 1][..i] == budgets[..i];
        if b.namespace in costs {
          var entry := Judge(b, costs[b.namespace], day, days);
          OneMoreStatus(old(events), list, entry);
          if entry.status == Warning || entry.status == Exceeded {
            Announce(entry);
          }
          list := list + [entry];
        }
      }
      assert budgets[..|budgets|] == budgets;
      statuses := list;
    }

    /** The non-blocking send. */
    method Announce(entry: BudgetStatus)
      modifies this`events
      ensures events == Offered(old(events), AlertFor(entry))
    {
      var topic := "budget.warning";
      if entry.status == Exceeded {
        topic := "budget.exceeded";
      }
      if |events| < EVENT_BUFFER {
        events := events + [Event(topic, entry)];
      }
    }
  }

  lemma OneMoreStatus(events: seq<Event>, list: seq<BudgetStatus>, entry: BudgetStatus)
    ensures events + Fitting(events, Alerts(list + [entry])) ==
            var sent := events + Fitting(events, Alerts(list));
            if entry.status == Ok then sent else Offered(sent, AlertFor(entry))
  {
    assert (list + [entry])[..|list|] == list;
    assert Alerts(list) + [] == Alerts(list);
    OfferedNext(events, Alerts(list), AlertFor(entry));
  }

  method Judge(b: Budget, spend: real, day: int, days: int) returns (entry: BudgetStatus)
    requires days > 0
    ensures entry == StatusOf(b, spend, day, days)
  {
    var monthProgress := day as real / days as real;
    var utilization := 0.0;
    if b.monthlyBudget > 0.0 {
      utilization := spend / b.monthlyBudget;
    }
    var projected := 0.0;
    if monthProgress > 0.0 {
      projected := spend / monthProgress;
    }
    var status := Ok;
    if utilization >= 1.0 {
      status := Exceeded;
    } else if utilization >= b.warningPercent {
      status := Warning;
    }
    entry := BudgetStatus(b.namespace, b.monthlyBudget, spend, utilization, status, projected);
  }

  // ---------------------------------------------------------------- what the figures mean

  /** The levels in terms of money: a budget that is not positive never counts as exceeded. */
  lemma LevelsInMoney(b: Budget, spend: real)
    ensures LevelOf(b, spend) == Exceeded <==> b.monthlyBudget > 0.0 && spend >= b.monthlyBudget
    ensures LevelOf(b, spend) != Ok <==>
              || (b.monthlyBudget > 0.0 && (spend >= b.monthlyBudget || spend >= b.warningPercent * b.monthlyBudget))
              || (b.monthlyBudget <= 0.0 && b.warningPercent <= 0.0)
  {
    if b.monthlyBudget > 0.0 {
      var u := Utilization(b, spend);
      assert spend == u * b.monthlyBudget;
      ScalesUp(u, 1.0, b.monthlyBudget);
      ScalesUp(u, b.warningPercent, b.monthlyBudget);
    }
  }

  lemma ScalesUp(x: real, y: real, k: real)
    requires k > 0.0
    ensures x >= y <==> x * k >= y * k
  {
    if x >= y {
      assert (x - y) * k >= 0.0;
    } else {
      assert (y - x) * k > 0.0;
    }
  }

  function Rank(level: Level): nat {
    match level
    case Ok => 0
    case Warning => 1
    case Exceeded => 2
  }

  /** More spend never looks better. */
  lemma LevelRisesWithSpend(b: Budget, less: real, more: real)
    requires less <= more
    ensures Rank(LevelOf(b, less)) <= Rank(LevelOf(b, more))
  {
    LevelsInMoney(b, less);
    LevelsInMoney(b, more);
  }

  lemma ProjectionScales(day: int, days: int, spend: real)
    requires 1 <= day <= days
    ensures Projected(day, days, spend) * day as real == spend * days as real
  {
    var d, n := day as real, days as real;
    var progress := d / n;
    assert progress * n == d;
    var p := spend / progress;
    assert p * progress == spend;
    Regroup(p, progress, n);
  }

  lemma Regroup(x: real, y: real, z: real)
    ensures x * (y * z) == (x * y) * z
  {
  }

  /** The projection is at least the spend so far; it is the spend itself on the last day only, or for no spend. */
  lemma ProjectionBounds(today: Date, spend: real)
    requires OnCalendar(today) && spend >= 0.0
    ensures DaysInCurrentMonth(today) > 0
    ensures Projected(today.day, DaysInCurrentMonth(today), spend) >= spend
    ensures Projected(today.day, DaysInCurrentMonth(today), spend) == spend <==>
            spend == 0.0 || today.day == MonthLength(today.year, today.month)
  {
    DaysInMonthAreGregorian(today);
    ProjectionFrom(today.day, MonthLength(today.year, today.month), spend);
  }

  lemma ProjectionFrom(day: int, days: int, spend: real)
    requires 1 <= day <= days && spend >= 0.0
    ensures Projected(day, days, spend) >= spend
    ensures Projected(day, days, spend) == spend <==> spend == 0.0 || day == days
  {
    ProjectionScales(day, days, spend);
    ScaledBack(Projected(day, days, spend), spend, day as real, days as real);
  }

  lemma ScaledBack(p: real, spend: real, day: real, days: real)
    requires p * day == spend * days && 1.0 <= day <= days && spend >= 0.0
    ensures p >= spend && (p == spend <==> spend == 0.0 || day == days)
  {
    assert (p - spend) * day == spend * (days - day);
    if day == days || spend == 0.0 {
      assert (p - spend) * day == 0.0;
      ScalesUp(p, spend, day);
      ScalesUp(spend, p, day);
    } else {
      assert spend * (days - day) > 0.0;
      ScalesUp(p, spend, day);
      assert p != spend;
    }
  }

  /** A status is reported exactly for the budgets whose namespace was charged, each with the namespace's spend. */
  lemma {:induction false} ReportedIffCharged(
    budgets: seq<Budget>, costs: map<string, real>, day: int, days: int, s: BudgetStatus)
    requires days > 0
    ensures s in Statuses(budgets, costs, day, days) <==>
            exists b | b in budgets :: b.namespace in costs && s == StatusOf(b, costs[b.namespace], day, days)
  {
    if budgets != [] {
      var front, last := budgets[..|budgets| - 1], budgets[|budgets| - 1];
      ReportedIffCharged(front, costs, day, days, s);
      assert forall b :: b in budgets <==> b in front || b == last;
    }
  }

  /** An alert goes out for exactly the statuses that are not Ok. */
  lemma {:induction false} AlertedIffNotOk(statuses: seq<BudgetStatus>, e: Event)
    ensures e in Alerts(statuses) <==>
              && e.payload in statuses
              && (|| (e.payload.status == Exceeded && e.topic == "budget.exceeded")
                  || (e.payload.status == Warning && e.topic == "budget.warning"))
  {
    if statuses != [] {
      var front, last := statuses[..|statuses| - 1], statuses[|statuses| - 1];
      AlertedIffNotOk(front, e);
      assert forall s :: s in statuses <==> s in front || s == last;
    }
  }

  /**
   * End to end, while the channel has room for the alerts: the events that a check adds to it announce a
   * namespace as exceeding its positive budget exactly when its charges reach the budget.
   */
  lemma OverspendingIsAnnounced(
    budgets: seq<Budget>, data: seq<Window>, day: int, days: int, b: Budget, queue: seq<Event>)
    requires days > 0 && b in budgets && b.monthlyBudget > 0.0
    requires |queue| + |Alerts(Statuses(budgets, SpendByNamespace(data), day, days))| <= EVENT_BUFFER
    ensures var s := StatusOf(b, SpendOf(data, b.namespace), day, days);
            SpendOf(data, b.namespace) >= b.monthlyBudget <==>
            Event("budget.exceeded", s) in Fitting(queue, Alerts(Statuses(budgets, SpendByNamespace(data), day, days)))
  {
    var costs, s := SpendByNamespace(data), StatusOf(b, SpendOf(data, b.namespace), day, days);
    if b.namespace !in ChargedNamespaces(data) {
      UnchargedIsZero(data, b.namespace);
    }
    LevelsInMoney(b, SpendOf(data, b.namespace));
    ReportedIffCharged(budgets, costs, day, days, s);
    AlertedIffNotOk(Statuses(budgets, costs, day, days), Event("budget.exceeded", s));
  }

  // ---------------------------------------------------------------- the figures of a status

  /** The cost that a window states for a namespace, if it is a number. */
  function Stated(w: Window, ns: string): real {
    if ns in w && "totalCost" in w[ns] && w[ns]["totalCost"].Number? then w[ns]["totalCost"].number else 0.0
  }

  function StatedOver(data: seq<Window>, ns: string): real {
    if data == [] then 0.0 else Stated(data[0], ns) + StatedOver(data[1..], ns)
  }

  /** Spend is the sum of the numbers that the windows state under totalCost. */
  lemma {:induction false} SpendIsStated(data: seq<Window>, ns: string)
    ensures SpendOf(data, ns) == StatedOver(data, ns)
  {
    if data != [] {
      var first, rest := data[..1], data[1..];
      assert data == first + rest;
      SpendOfConcat(first, rest, ns);
      SpendIsStated(rest, ns);
      NumbersAreRead(if ns in data[0] then data[0][ns] else map[], "totalCost");
      assert first[..0] == [] && SpendOf(first, ns) == At(Charges(data[0]), ns);
    }
  }

  /**
   * What a reported status says: the namespace's spend, that spend as a share of a positive budget, and the
   * spend carried on to the end of the month in the proportion of its days.
   */
  lemma StatusFigures(budgets: seq<Budget>, data: seq<Window>, day: int, days: int, s: BudgetStatus)
    requires 1 <= day <= days && s in Statuses(budgets, SpendByNamespace(data), day, days)
    ensures exists b | b in budgets :: Reports(s, b, StatedOver(data, b.namespace), day, days)
  {
    var costs := SpendByNamespace(data);
    ReportedIffCharged(budgets, costs, day, days, s);
    var b :| b in budgets && b.namespace in costs && s == StatusOf(b, costs[b.namespace], day, days);
    SpendIsStated(data, b.namespace);
    FiguresOf(b, StatedOver(data, b.namespace), day, days);
  }

  ghost predicate Reports(s: BudgetStatus, b: Budget, spend: real, day: int, days: int) {
    && s.namespace == b.namespace && s.monthlyBudget == b.monthlyBudget && s.currentSpend == spend
    && (if b.monthlyBudget > 0.0 then s.utilization * b.monthlyBudget == spend else s.utilization == 0.0)
    && s.projectedEnd * day as real == spend * days as real
    && (s.status == Exceeded <==> b.monthlyBudget > 0.0 && spend >= b.monthlyBudget)
    && (b.monthlyBudget > 0.0 && s.status != Exceeded ==>
          (s.status == Warning <==> spend >= b.warningPercent * b.monthlyBudget))
  }

  lemma FiguresOf(b: Budget, spend: real, day: int, days: int)
    requires 1 <= day <= days
    ensures Reports(StatusOf(b, spend, day, days), b, spend, day, days)
  {
    ProjectionScales(day, days, spend);
    LevelsInMoney(b, spend);
  }
}
