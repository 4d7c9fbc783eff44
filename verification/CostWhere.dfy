/**
 * The query builder buildCostWhere of internal/store/sql.go, compiled further by the placeholder
 * rewriter, against a small semantics of the SQL text that comes out.
 */
module CostWhere {
  import opened Basics
  import opened Decimal
  import opened Rebind
  import opened Model

  // ---------------------------------------------------------------- the builder

  /** An argument bound to a placeholder, or the content of a column. */
  datatype Value = Text(s: string) | Instant(t: Time)

  datatype Clause = Clause(column: string, op: string, value: Value)

  function When(given: bool, c: Clause): seq<Clause> {
    if given then [c] else []
  }

  /** The restrictions that a query sets, in the builder's order. */
  function Clauses(q: CostQuery): seq<Clause> {
    When(q.projectId != "", Clause("project_id", "=", Text(q.projectId)))
    + When(q.costSourceId != "", Clause("cost_source_id", "=", Text(q.costSourceId)))
    + When(q.provider != "", Clause("provider", "=", Text(q.provider)))
    + When(q.service != "", Clause("service", "=", Text(q.service)))
    + When(q.startTime != ZERO_TIME, Clause("start_time", ">=", Instant(q.startTime)))
    + When(q.endTime != ZERO_TIME, Clause("end_time", "<=", Instant(q.endTime)))
  }

  function ClauseText(c: Clause, marker: string): string {
    c.column + " " + c.op + " " + marker
  }

  function Conditions(cs: seq<Clause>): seq<string> {
    seq(|cs|, i requires 0 <= i < |cs| => ClauseText(cs[i], "?"))
  }

  function Arguments(cs: seq<Clause>): seq<Value> {
    seq(|cs|, i requires 0 <= i < |cs| => cs[i].value)
  }

  /** strings.Join */
  function Join(parts: seq<string>, sep: string): string {
    if parts == [] then ""
    else if |parts| == 1 then parts[0]
    else parts[0] + sep + Join(parts[1..], sep)
  }

  function WhereText(cs: seq<Clause>): string {
    if cs == [] then "" else " WHERE " + Join(Conditions(cs), " AND ")
  }

  /** One more restriction, if it is given. */
  lemma Extend(cs: seq<Clause>, given: bool, c: Clause) returns (more: seq<Clause>)
    ensures more == cs + When(given, c)
    ensures given ==>
              Conditions(more) == Conditions(cs) + [ClauseText(c, "?")] && Arguments(more) == Arguments(cs) + [c.value]
    ensures !given ==> Conditions(more) == Conditions(cs) && Arguments(more) == Arguments(cs)
  {
    more := cs + When(given, c);
  }

  /** The builder's literal condition texts. */
  lemma ConditionTexts()
    ensures forall v :: ClauseText(Clause("project_id", "=", v), "?") == "project_id = ?"
    ensures forall v :: ClauseText(Clause("cost_source_id", "=", v), "?") == "cost_source_id = ?"
    ensures forall v :: ClauseText(Clause("provider", "=", v), "?") == "provider = ?"
    ensures forall v :: ClauseText(Clause("service", "=", v), "?") == "service = ?"
    ensures forall v :: ClauseText(Clause("start_time", ">=", v), "?") == "start_time >= ?"
    ensures forall v :: ClauseText(Clause("end_time", "<=", v), "?") == "end_time <= ?"
  {
    assert "project_id" + " " + "=" + " " + "?" == "project_id = ?";
    assert "cost_source_id" + " " + "=" + " " + "?" == "cost_source_id = ?";
    assert "provider" + " " + "=" + " " + "?" == "provider = ?";
    assert "service" + " " + "=" + " " + "?" == "service = ?";
    assert "start_time" + " " + ">=" + " " + "?" == "start_time >= ?";
    assert "end_time" + " " + "<=" + " " + "?" == "end_time <= ?";
  }

  method BuildCostWhere(q: CostQuery) returns (where: string, args: seq<Value>)
    ensures where == WhereText(Clauses(q))
    ensures args == Arguments(Clauses(q))
    ensures forall driver, r :: Selects(driver, DriverText(driver, where), args, r) == Some(Matches(q, r))
  {
    var conditions: seq<string> := [];
    args := [];
    ghost var cs: seq<Clause> := [];
    ConditionTexts();
    if q.projectId != "" {
      conditions, args := conditions + ["project_id = ?"], args + [Text(q.projectId)];
    }
    cs := Extend(cs, q.projectId != "", Clause("project_id", "=", Text(q.projectId)));
    assert conditions == Conditions(cs) && args == Arguments(cs);
    assert cs == When(q.projectId != "", Clause("project_id", "=", Text(q.projectId)));
    if q.costSourceId != "" {
      conditions, args := conditions + ["cost_source_id = ?"], args + [Text(q.costSourceId)];
    }
    cs := Extend(cs, q.costSourceId != "", Clause("cost_source_id", "=", Text(q.costSourceId)));
    assert conditions == Conditions(cs) && args == Arguments(cs);
    if q.provider != "" {
      conditions, args := conditions + ["provider = ?"], args + [Text(q.provider)];
    }
    cs := Extend(cs, q.provider != "", Clause("provider", "=", Text(q.provider)));
    assert conditions == Conditions(cs) && args == Arguments(cs);
    if q.service != "" {
      conditions, args := conditions + ["service = ?"], args + [Text(q.service)];
    }
    cs := Extend(cs, q.service != "", Clause("service", "=", Text(q.service)));
    assert conditions == Conditions(cs) && args == Arguments(cs);
    if q.startTime != ZERO_TIME {
      conditions, args := conditions + ["start_time >= ?"], args + [Instant(q.startTime)];
    }
    cs := Extend(cs, q.startTime != ZERO_TIME, Clause("start_time", ">=", Instant(q.startTime)));
    assert conditions == Conditions(cs) && args == Arguments(cs);
    if q.endTime != ZERO_TIME {
      conditions, args := conditions + ["end_time <= ?"], args + [Instant(q.endTime)];
    }
    cs := Extend(cs, q.endTime != ZERO_TIME, Clause("end_time", "<=", Instant(q.endTime)));
    assert conditions == Conditions(cs) && args == Arguments(cs);
    assert cs == Clauses(q);
    where := if |conditions| == 0 then "" else " WHERE " + Join(conditions, " AND ");
    assert where == WhereText(Clauses(q)) && args == Arguments(Clauses(q));
    AlwaysSelectsMatches(q);
  }

  // ---------------------------------------------------------------- what the text means

  /** A text cut at every blank. */
  function Words(t: string): (ws: seq<string>)
    ensures ws != []
  {
    if t == "" then [""]
    else if t[0] == ' ' then [""] + Words(t[1..])
    else var ws := Words(t[1..]); [[t[0]] + ws[0]] + ws[1..]
  }

  datatype Term = Term(column: string, op: string, arg: nat)

  /** The argument a placeholder stands for: `$N` says so, the n+1st `?` is argument n+1. */
  function ArgOf(driver: string, w: string, n: nat): Option<nat> {
    if driver == "pgx" then
      if |w| > 1 && w[0] == '$' && AllDigits(w[1..]) then Some(Atoi(w[1..])) else None
    else
      if w == "?" then Some(n + 1) else None
  }

  /** column op placeholder, joined by AND. */
  function ParseTerms(driver: string, ws: seq<string>, n: nat): Option<seq<Term>> {
    if |ws| < 3 then None
    else
      match ArgOf(driver, ws[2], n)
      case None => None
      case Some(arg) =>
        if |ws| == 3 then Some([Term(ws[0], ws[1], arg)])
        else if ws[3] != "AND" then None
        else
          match ParseTerms(driver, ws[4..], n + 1)
          case None => None
          case Some(terms) => Some([Term(ws[0], ws[1], arg)] + terms)
  }

  function ParseWhere(driver: string, text: string): Option<seq<Term>> {
    if text == "" then Some([])
    else
      var ws := Words(text);
      if |ws| > 2 && ws[0] == "" && ws[1] == "WHERE" then ParseTerms(driver, ws[2..], 0) else None
  }

  function Cell(r: CostRecord, column: string): Option<Value> {
    if column == "project_id" then Some(Text(r.projectId))
    else if column == "cost_source_id" then Some(Text(r.costSourceId))
    else if column == "provider" then Some(Text(r.provider))
    else if column == "service" then Some(Text(r.service))
    else if column == "start_time" then Some(Instant(r.startTime))
    else if column == "end_time" then Some(Instant(r.endTime))
    else None
  }

  function Compare(op: string, a: Value, b: Value): Option<bool> {
    if op == "=" then Some(a == b)
    else if op == ">=" && a.Instant? && b.Instant? then Some(a.t >= b.t)
    else if op == "<=" && a.Instant? && b.Instant? then Some(a.t <= b.t)
    else None
  }

  function EvalTerm(t: Term, args: seq<Value>, r: CostRecord): Option<bool> {
    if !(1 <= t.arg <= |args|) || Cell(r, t.column) == None then None
    else Compare(t.op, Cell(r, t.column).value, args[t.arg - 1])
  }

  function EvalTerms(ts: seq<Term>, args: seq<Value>, r: CostRecord): Option<bool> {
    if ts == [] then Some(true)
    else
      match (EvalTerm(ts[0], args, r), EvalTerms(ts[1..], args, r))
      case (Some(a), Some(b)) => Some(a && b)
      case _ => None
  }

  /** Whether a WHERE text with its arguments selects a record; None for a text that has no meaning. */
  function Selects(driver: string, where: string, args: seq<Value>, r: CostRecord): Option<bool> {
    match ParseWhere(driver, where)
    case None => None
    case Some(ts) => EvalTerms(ts, args, r)
  }

  // ---------------------------------------------------------------- from clauses to text

  /** Neither a blank, nor a quote, nor a placeholder byte. */
  predicate Inert(s: string) {
    forall i | 0 <= i < |s| :: s[i] !in " '?$"
  }

  predicate InertClauses(cs: seq<Clause>) {
    forall c | c in cs :: Inert(c.column) && Inert(c.op)
  }

  function Marker(driver: string, n: nat): string {
    if driver == "pgx" then "$" + Itoa(n) else "?"
  }

  /** The joined conditions as the driver gets them, when n placeholders went before. */
  function SentText(driver: string, cs: seq<Clause>, n: nat): string
    requires cs != []
  {
    ClauseText(cs[0], Marker(driver, n + 1))
    + if |cs| == 1 then "" else " AND " + SentText(driver, cs[1..], n + 1)
  }

  lemma InertWhen(before: seq<Clause>, given: bool, c: Clause)
    requires InertClauses(before) && Inert(c.column) && Inert(c.op)
    ensures InertClauses(before + When(given, c))
  {
  }

  lemma ClausesAreInert(q: CostQuery)
    ensures InertClauses(Clauses(q))
  {
    var c1, c2 := Clause("project_id", "=", Text(q.projectId)), Clause("cost_source_id", "=", Text(q.costSourceId));
    var c3, c4 := Clause("provider", "=", Text(q.provider)), Clause("service", "=", Text(q.service));
    var c5, c6 := Clause("start_time", ">=", Instant(q.startTime)), Clause("end_time", "<=", Instant(q.endTime));
    TextColumnsAreInert();
    TimeColumnsAreInert();
    var cs := When(q.projectId != "", c1);
    InertWhen(cs, q.costSourceId != "", c2);
    cs := cs + When(q.costSourceId != "", c2);
    InertWhen(cs, q.provider != "", c3);
    cs := cs + When(q.provider != "", c3);
    InertWhen(cs, q.service != "", c4);
    cs := cs + When(q.service != "", c4);
    InertWhen(cs, q.startTime != ZERO_TIME, c5);
    InertWhen(cs + When(q.startTime != ZERO_TIME, c5), q.endTime != ZERO_TIME, c6);
  }

  lemma TextColumnsAreInert()
    ensures Inert("project_id") && Inert("cost_source_id") && Inert("provider") && Inert("service") && Inert("=")
  {
  }

  lemma TimeColumnsAreInert()
    ensures Inert("start_time") && Inert("end_time") && Inert(">=") && Inert("<=")
  {
  }

  lemma ConditionsTail(cs: seq<Clause>)
    requires cs != []
    ensures Conditions(cs) == [ClauseText(cs[0], "?")] + Conditions(cs[1..])
  {
  }

  lemma {:induction false} JoinedIsSent(cs: seq<Clause>, n: nat)
    requires cs != []
    ensures Join(Conditions(cs), " AND ") == SentText("sqlite", cs, n)
  {
    ConditionsTail(cs);
    if |cs| > 1 {
      JoinedIsSent(cs[1..], n + 1);
      Glue(ClauseText(cs[0], "?"), " AND ", Join(Conditions(cs[1..]), " AND "));
    }
  }

  /** A clause with what follows it: the head has no placeholder, the marker is one byte. */
  lemma ReboundClause(c: Clause, rest: string, n: nat)
    requires Inert(c.column) && Inert(c.op)
    ensures ReboundFrom(ClauseText(c, "?") + rest, n, false)
         == ClauseText(c, "$" + Itoa(n + 1)) + ReboundFrom(rest, n + 1, false)
  {
    var head := c.column + " " + c.op + " ";
    assert ClauseText(c, "?") + rest == head + ("?" + rest);
    assert forall i | 0 <= i < |head| :: head[i] != '?' && head[i] != '\'';
    FramePassesThrough(head, "?" + rest, n);
    assert ("?" + rest)[1..] == rest;
    Glue(head, "$" + Itoa(n + 1), ReboundFrom(rest, n + 1, false));
  }

  lemma {:induction false} NoPlaceholders(s: string)
    requires '?' !in s && '\'' !in s
    ensures Placeholders(s, false) == 0
  {
    if s != "" {
      NoPlaceholders(s[1..]);
    }
  }

  lemma {:induction false} ReboundSent(cs: seq<Clause>, n: nat)
    requires cs != [] && InertClauses(cs)
    ensures ReboundFrom(SentText("sqlite", cs, n), n, false) == SentText("pgx", cs, n)
  {
    var rest := if |cs| == 1 then "" else " AND " + SentText("sqlite", cs[1..], n + 1);
    ReboundClause(cs[0], rest, n);
    if |cs| > 1 {
      ReboundSent(cs[1..], n + 1);
      FramePassesThrough(" AND ", SentText("sqlite", cs[1..], n + 1), n + 1);
    }
  }

  /** What the driver is sent for a query that sets some field. */
  lemma WhereAsSent(driver: string, cs: seq<Clause>)
    requires cs != [] && InertClauses(cs)
    ensures DriverText(driver, WhereText(cs)) == " WHERE " + SentText(driver, cs, 0)
  {
    JoinedIsSent(cs, 0);
    assert WhereText(cs) == " WHERE " + SentText("sqlite", cs, 0);
    if driver == "pgx" {
      ReboundSent(cs, 0);
      FramePassesThrough(" WHERE ", SentText("sqlite", cs, 0), 0);
    } else {
      SameMarkers(driver, cs, 0);
    }
  }

  lemma FramePassesThrough(head: string, rest: string, n: nat)
    requires '?' !in head && '\'' !in head
    ensures ReboundFrom(head + rest, n, false) == head + ReboundFrom(rest, n, false)
  {
    NothingToRebind(head, n, false);
    NoPlaceholders(head);
    assert n + Placeholders(head, false) == n;
    CodePassesThrough(head, rest, n);
  }

  lemma {:induction false} SameMarkers(driver: string, cs: seq<Clause>, n: nat)
    requires cs != [] && driver != "pgx"
    ensures SentText(driver, cs, n) == SentText("sqlite", cs, n)
  {
    if |cs| > 1 {
      SameMarkers(driver, cs[1..], n + 1);
    }
  }

  // ---------------------------------------------------------------- from text back to clauses

  lemma {:induction false} WordsOfConcat(w: string, rest: string)
    requires ' ' !in w
    ensures Words(w + (" " + rest)) == [w] + Words(rest)
    ensures Words(w) == [w]
  {
    if w == "" {
      assert w + (" " + rest) == " " + rest && (" " + rest)[1..] == rest;
    } else {
      WordsOfConcat(w[1..], rest);
      assert (w + (" " + rest))[1..] == w[1..] + (" " + rest);
      assert w == [w[0]] + w[1..];
    }
  }

  lemma MarkerIsOneWord(driver: string, n: nat, m: nat)
    requires driver == "pgx" || n == m + 1
    ensures ' ' !in Marker(driver, n) && ArgOf(driver, Marker(driver, n), m) == Some(n)
  {
    PrintThenRead(n);
    assert ("$" + Itoa(n))[1..] == Itoa(n);
    assert forall i | 0 <= i < |Itoa(n)| :: IsDigit(Itoa(n)[i]);
  }

  lemma WordsOfClause(c: Clause, marker: string, rest: string)
    requires Inert(c.column) && Inert(c.op) && ' ' !in marker
    ensures Words(ClauseText(c, marker)) == [c.column, c.op, marker]
    ensures Words(ClauseText(c, marker) + (" " + rest)) == [c.column, c.op, marker] + Words(rest)
  {
    ThreeWords(c.column, c.op, marker, marker);
    ClauseParts(c, marker, rest);
    WordsOfConcat(marker, rest);
    ThreeWords(c.column, c.op, marker, marker + (" " + rest));
  }

  lemma ClauseParts(c: Clause, marker: string, rest: string)
    ensures ClauseText(c, marker) == c.column + (" " + (c.op + (" " + marker)))
    ensures ClauseText(c, marker) + (" " + rest) == c.column + (" " + (c.op + (" " + (marker + (" " + rest)))))
  {
  }

  lemma ThreeWords(column: string, op: string, marker: string, tail: string)
    requires Inert(column) && Inert(op) && ' ' !in marker
    ensures Words(column + (" " + (op + (" " + tail)))) == [column, op] + Words(tail)
    ensures Words(marker) == [marker]
  {
    assert ' ' !in column && ' ' !in op;
    WordsOfConcat(column, op + (" " + tail));
    WordsOfConcat(op, tail);
    WordsOfConcat(marker, tail);
  }

  function Terms(cs: seq<Clause>, n: nat): seq<Term> {
    seq(|cs|, i requires 0 <= i < |cs| => Term(cs[i].column, cs[i].op, n + 1 + i))
  }

  lemma {:induction false} SentTextParses(driver: string, cs: seq<Clause>, n: nat)
    requires cs != [] && InertClauses(cs)
    ensures ParseTerms(driver, Words(SentText(driver, cs, n)), n) == Some(Terms(cs, n))
  {
    var marker := Marker(driver, n + 1);
    MarkerIsOneWord(driver, n + 1, n);
    TermsTail(cs, n);
    if |cs| == 1 {
      assert SentText(driver, cs, n) == ClauseText(cs[0], marker);
      WordsOfClause(cs[0], marker, "");
    } else {
      var rest := SentText(driver, cs[1..], n + 1);
      SentWords(cs[0], marker, rest);
      SentTextParses(driver, cs[1..], n + 1);
      var ws := Words(SentText(driver, cs, n));
      assert ws[4..] == Words(rest);
    }
  }

  lemma TermsTail(cs: seq<Clause>, n: nat)
    requires cs != []
    ensures Terms(cs, n) == [Term(cs[0].column, cs[0].op, n + 1)] + Terms(cs[1..], n + 1)
    ensures |cs| == 1 ==> Terms(cs, n) == [Term(cs[0].column, cs[0].op, n + 1)]
  {
  }

  lemma SentWords(c: Clause, marker: string, rest: string)
    requires Inert(c.column) && Inert(c.op) && ' ' !in marker
    ensures Words(ClauseText(c, marker) + (" AND " + rest)) == [c.column, c.op, marker, "AND"] + Words(rest)
  {
    assert " AND " + rest == " " + ("AND" + (" " + rest));
    WordsOfClause(c, marker, "AND" + (" " + rest));
    WordsOfConcat("AND", rest);
  }

  /** The text that reaches the driver reads back as the clauses it was built from. */
  lemma WhereParses(driver: string, cs: seq<Clause>)
    requires InertClauses(cs)
    ensures ParseWhere(driver, DriverText(driver, WhereText(cs))) == Some(Terms(cs, 0))
  {
    if cs == [] {
      assert DriverText(driver, WhereText(cs)) == "" && Terms(cs, 0) == [];
    } else {
      WhereAsSent(driver, cs);
      WhereWords(SentText(driver, cs, 0));
      SentTextParses(driver, cs, 0);
    }
  }

  lemma WhereWords(sent: string)
    ensures var ws := Words(" WHERE " + sent);
            |ws| > 2 && ws[0] == "" && ws[1] == "WHERE" && ws[2..] == Words(sent)
    ensures " WHERE " + sent != ""
  {
    assert " WHERE " + sent == "" + (" " + ("WHERE" + (" " + sent)));
    WordsOfConcat("", "WHERE" + (" " + sent));
    WordsOfConcat("WHERE", sent);
    assert Words(" WHERE " + sent) == ["", "WHERE"] + Words(sent);
  }

  // ---------------------------------------------------------------- meaning

  predicate Holds(c: Clause, r: CostRecord) {
    Cell(r, c.column).Some? && Compare(c.op, Cell(r, c.column).value, c.value) == Some(true)
  }

  predicate Comparable(c: Clause, r: CostRecord) {
    Cell(r, c.column).Some? && Compare(c.op, Cell(r, c.column).value, c.value).Some?
  }

  predicate AllHold(cs: seq<Clause>, r: CostRecord) {
    cs == [] || (Holds(cs[0], r) && AllHold(cs[1..], r))
  }

  lemma {:induction false} AllHoldOfConcat(a: seq<Clause>, b: seq<Clause>, r: CostRecord)
    ensures AllHold(a + b, r) <==> AllHold(a, r) && AllHold(b, r)
  {
    if a == [] {
      assert a + b == b;
    } else {
      assert (a + b)[1..] == a[1..] + b;
      AllHoldOfConcat(a[1..], b, r);
    }
  }

  lemma {:induction false} TermsEvaluate(cs: seq<Clause>, n: nat, args: seq<Value>, r: CostRecord)
    requires forall c | c in cs :: Comparable(c, r)
    requires n <= |args| && args[n..] == Arguments(cs)
    ensures EvalTerms(Terms(cs, n), args, r) == Some(AllHold(cs, r))
  {
    if cs != [] {
      assert args[n] == args[n..][0] == cs[0].value;
      assert args[n + 1..] == args[n..][1..] == Arguments(cs[1..]);
      TermsEvaluate(cs[1..], n + 1, args, r);
      assert Terms(cs, n)[1..] == Terms(cs[1..], n + 1);
      assert Terms(cs, n)[0] == Term(cs[0].column, cs[0].op, n + 1);
      assert Comparable(cs[0], r);
    } else {
      assert Terms(cs, n) == [];
    }
  }

  lemma TextClauses(v: string, r: CostRecord)
    ensures var c := Clause("project_id", "=", Text(v)); Comparable(c, r) && (Holds(c, r) <==> r.projectId == v)
    ensures var c := Clause("cost_source_id", "=", Text(v)); Comparable(c, r) && (Holds(c, r) <==> r.costSourceId == v)
    ensures var c := Clause("provider", "=", Text(v)); Comparable(c, r) && (Holds(c, r) <==> r.provider == v)
    ensures var c := Clause("service", "=", Text(v)); Comparable(c, r) && (Holds(c, r) <==> r.service == v)
  {
  }

  lemma TimeClauses(t: Time, r: CostRecord)
    ensures var c := Clause("start_time", ">=", Instant(t)); Comparable(c, r) && (Holds(c, r) <==> r.startTime >= t)
    ensures var c := Clause("end_time", "<=", Instant(t)); Comparable(c, r) && (Holds(c, r) <==> r.endTime <= t)
  {
  }

  lemma WhenMeans(before: seq<Clause>, given: bool, c: Clause, r: CostRecord)
    requires given ==> Comparable(c, r)
    requires forall d | d in before :: Comparable(d, r)
    ensures forall d | d in before + When(given, c) :: Comparable(d, r)
    ensures AllHold(before + When(given, c), r) <==> AllHold(before, r) && (given ==> Holds(c, r))
  {
    AllHoldOfConcat(before, When(given, c), r);
  }

  lemma ClausesMeanMatch(q: CostQuery, r: CostRecord)
    ensures forall c | c in Clauses(q) :: Comparable(c, r)
    ensures AllHold(Clauses(q), r) <==> Matches(q, r)
  {
    TextClausesMean(q, r);
    TimeClauses(q.startTime, r);
    TimeClauses(q.endTime, r);
    var five := TextPart(q) + When(q.startTime != ZERO_TIME, Clause("start_time", ">=", Instant(q.startTime)));
    WhenMeans(TextPart(q), q.startTime != ZERO_TIME, Clause("start_time", ">=", Instant(q.startTime)), r);
    WhenMeans(five, q.endTime != ZERO_TIME, Clause("end_time", "<=", Instant(q.endTime)), r);
  }

  function TextPart(q: CostQuery): seq<Clause> {
    When(q.projectId != "", Clause("project_id", "=", Text(q.projectId)))
    + When(q.costSourceId != "", Clause("cost_source_id", "=", Text(q.costSourceId)))
    + When(q.provider != "", Clause("provider", "=", Text(q.provider)))
    + When(q.service != "", Clause("service", "=", Text(q.service)))
  }

  lemma TextClausesMean(q: CostQuery, r: CostRecord)
    ensures forall c | c in TextPart(q) :: Comparable(c, r)
    ensures AllHold(TextPart(q), r) <==>
            && (q.projectId != "" ==> r.projectId == q.projectId)
            && (q.costSourceId != "" ==> r.costSourceId == q.costSourceId)
            && (q.provider != "" ==> r.provider == q.provider)
            && (q.service != "" ==> r.service == q.service)
  {
    var c1, c2 := Clause("project_id", "=", Text(q.projectId)), Clause("cost_source_id", "=", Text(q.costSourceId));
    var c3, c4 := Clause("provider", "=", Text(q.provider)), Clause("service", "=", Text(q.service));
    TextClauses(q.projectId, r);
    TextClauses(q.costSourceId, r);
    TextClauses(q.provider, r);
    TextClauses(q.service, r);
    FourMean(q.projectId != "", c1, q.costSourceId != "", c2, q.provider != "", c3, q.service != "", c4, r);
  }

  lemma FourMean(g1: bool, c1: Clause, g2: bool, c2: Clause, g3: bool, c3: Clause, g4: bool, c4: Clause, r: CostRecord)
    requires Comparable(c1, r) && Comparable(c2, r) && Comparable(c3, r) && Comparable(c4, r)
    ensures var cs := When(g1, c1) + When(g2, c2) + When(g3, c3) + When(g4, c4);
            && (forall c | c in cs :: Comparable(c, r))
            && (AllHold(cs, r) <==>
                  (g1 ==> Holds(c1, r)) && (g2 ==> Holds(c2, r)) && (g3 ==> Holds(c3, r)) && (g4 ==> Holds(c4, r)))
  {
    WhenMeans([], g1, c1, r);
    assert [] + When(g1, c1) == When(g1, c1);
    WhenMeans(When(g1, c1), g2, c2, r);
    WhenMeans(When(g1, c1) + When(g2, c2), g3, c3, r);
    WhenMeans(When(g1, c1) + When(g2, c2) + When(g3, c3), g4, c4, r);
  }

  /**
   * For every query, record and driver: the WHERE text that reaches the driver, evaluated with the
   * argument list, selects the record exactly when the record satisfies every field that is set.
   */
  lemma WhereSelectsMatches(driver: string, q: CostQuery, r: CostRecord)
    ensures Selects(driver, DriverText(driver, WhereText(Clauses(q))), Arguments(Clauses(q)), r) == Some(Matches(q, r))
  {
    ClausesAreInert(q);
    WhereParses(driver, Clauses(q));
    ClausesMeanMatch(q, r);
    TermsEvaluate(Clauses(q), 0, Arguments(Clauses(q)), r);
  }

  lemma AlwaysSelectsMatches(q: CostQuery)
    ensures forall driver, r ::
              Selects(driver, DriverText(driver, WhereText(Clauses(q))), Arguments(Clauses(q)), r)
                == Some(Matches(q, r))
  {
    forall driver, r
      ensures Selects(driver, DriverText(driver, WhereText(Clauses(q))), Arguments(Clauses(q)), r)
              == Some(Matches(q, r))
    {
      WhereSelectsMatches(driver, q, r);
    }
  }

  /** No field of the query is set, but for the page. */
  predicate Unrestricted(q: CostQuery) {
    && q.projectId == "" && q.costSourceId == "" && q.provider == "" && q.service == ""
    && q.startTime == ZERO_TIME && q.endTime == ZERO_TIME
  }

  lemma NoClauses(q: CostQuery)
    ensures Clauses(q) == [] <==> Unrestricted(q)
  {
  }

  /** A record that every restriction rejects. */
  function Misfit(q: CostQuery): CostRecord {
    CostRecord("", "", "", "", "", "", "", "", "", q.startTime - 1, q.endTime + 1, 0.0, 0.0, 0.0, 0.0, "", map[], 0.0)
  }

  /** Whether the WHERE text that reaches the driver is true of a record. */
  predicate SqlSelects(driver: string, q: CostQuery, r: CostRecord) {
    Selects(driver, DriverText(driver, WhereText(Clauses(q))), Arguments(Clauses(q)), r) == Some(true)
  }

  /**
   * The query that sets no field, and only it, has no WHERE text, has no arguments, and selects every
   * record, whichever the driver.
   */
  lemma EmptyQuerySelectsAll(driver: string, q: CostQuery)
    ensures WhereText(Clauses(q)) == "" <==> Unrestricted(q)
    ensures Arguments(Clauses(q)) == [] <==> Unrestricted(q)
    ensures (forall r :: SqlSelects(driver, q, r)) <==> Unrestricted(q)
  {
    NoClauses(q);
    forall r ensures SqlSelects(driver, q, r) <==> Matches(q, r) {
      WhereSelectsMatches(driver, q, r);
    }
    assert SqlSelects(driver, q, Misfit(q)) ==> Matches(q, Misfit(q));
  }

  // ---------------------------------------------------------------- the whole statement

  /** Text around the WHERE part: no quotes and no placeholder bytes. */
  predicate Frame(s: string) {
    forall i | 0 <= i < |s| :: s[i] !in "'?$"
  }

  lemma {:induction false} FrameIsClean(s: string, rest: string)
    requires Frame(s)
    ensures CleanFrom(s + rest, false) == CleanFrom(rest, false)
    ensures Placeholders(s + rest, false) == Placeholders(rest, false)
  {
    if s == "" {
      assert s + rest == rest;
    } else {
      assert (s + rest)[1..] == s[1..] + rest;
      FrameIsClean(s[1..], rest);
    }
  }

  lemma ClauseIsClean(c: Clause, rest: string)
    requires Inert(c.column) && Inert(c.op) && CleanFrom(rest, false) && DigitRun(rest) == 0
    ensures CleanFrom(ClauseText(c, "?") + rest, false)
    ensures Placeholders(ClauseText(c, "?") + rest, false) == 1 + Placeholders(rest, false)
  {
    var head := c.column + " " + c.op + " ";
    assert Frame(head);
    FrameIsClean(head, "?" + rest);
    assert ClauseText(c, "?") + rest == head + ("?" + rest);
    assert ("?" + rest)[1..] == rest;
  }

  lemma {:induction false} SentIsClean(cs: seq<Clause>, n: nat, tail: string)
    requires cs != [] && InertClauses(cs) && CleanFrom(tail, false) && DigitRun(tail) == 0
    ensures CleanFrom(SentText("sqlite", cs, n) + tail, false)
    ensures Placeholders(SentText("sqlite", cs, n) + tail, false) == |cs| + Placeholders(tail, false)
  {
    assert cs[0] in cs;
    if |cs| == 1 {
      assert SentText("sqlite", cs, n) + tail == ClauseText(cs[0], "?") + tail;
      ClauseIsClean(cs[0], tail);
    } else {
      var more := SentText("sqlite", cs[1..], n + 1);
      SentIsClean(cs[1..], n + 1, tail);
      FrameIsClean(" AND ", more + tail);
      ClauseIsClean(cs[0], " AND " + (more + tail));
      assert SentText("sqlite", cs, n) + tail == ClauseText(cs[0], "?") + (" AND " + (more + tail));
    }
  }

  /**
   * A statement built around the WHERE part keeps its meaning through the rewriter, and has as many
   * placeholders, numbered $1 .. $k in order, as there are arguments.
   */
  lemma StatementIsRebindable(head: string, q: CostQuery, tail: string)
    requires Frame(head) && Frame(tail) && DigitRun(tail) == 0
    ensures var text := head + (WhereText(Clauses(q)) + tail);
            var k := |Arguments(Clauses(q))|;
            && Clean(text)
            && Placeholders(text, false) == k
            && ArgIndices(LexDollar(Rebound(text), false)) == seq(k, i => 1 + i)
  {
    WhereIsClean(Clauses(q), tail) by { ClausesAreInert(q); }
    FrameIsClean(head, WhereText(Clauses(q)) + tail);
    NumberedInOrder(head + (WhereText(Clauses(q)) + tail));
  }

  lemma {:induction false} SentHasNoQuote(cs: seq<Clause>, n: nat)
    requires cs != [] && InertClauses(cs)
    ensures '\'' !in SentText("sqlite", cs, n)
  {
    assert cs[0] in cs;
    if |cs| > 1 {
      SentHasNoQuote(cs[1..], n + 1);
    }
  }

  lemma WhereHasNoQuote(cs: seq<Clause>)
    requires InertClauses(cs)
    ensures '\'' !in WhereText(cs)
  {
    if cs != [] {
      JoinedIsSent(cs, 0);
      SentHasNoQuote(cs, 0);
    }
  }

  /**
   * The store rewrites the whole statement: what a driver gets around the WHERE part is unchanged, and the
   * WHERE part is the text that was rewritten by itself.
   */
  lemma StatementIsSentInParts(driver: string, head: string, q: CostQuery, tail: string)
    requires Frame(head) && Frame(tail)
    ensures var where := WhereText(Clauses(q));
            DriverText(driver, head + (where + tail)) == head + (DriverText(driver, where) + tail)
  {
    ClausesAreInert(q);
    WhereHasNoQuote(Clauses(q));
    ReboundInParts(head, WhereText(Clauses(q)), tail);
  }

  lemma ReboundInParts(head: string, code: string, tail: string)
    requires Frame(head) && Frame(tail) && '\'' !in code
    ensures Rebound(head + (code + tail)) == head + (Rebound(code) + tail)
  {
    FramePassesThrough(head, code + tail, 0);
    CodePassesThrough(code, tail, 0);
    NothingToRebind(tail, Placeholders(code, false), false);
  }

  lemma WhereIsClean(cs: seq<Clause>, tail: string)
    requires InertClauses(cs) && Frame(tail) && DigitRun(tail) == 0
    ensures CleanFrom(WhereText(cs) + tail, false) && Placeholders(WhereText(cs) + tail, false) == |cs|
  {
    FrameIsClean(tail, "");
    assert tail + "" == tail;
    if cs == [] {
      assert WhereText(cs) + tail == tail;
    } else {
      JoinedIsSent(cs, 0);
      SentIsClean(cs, 0, tail);
      WhereFrame(SentText("sqlite", cs, 0), tail);
    }
  }

  lemma WhereFrame(sent: string, tail: string)
    ensures CleanFrom(" WHERE " + sent + tail, false) == CleanFrom(sent + tail, false)
    ensures Placeholders(" WHERE " + sent + tail, false) == Placeholders(sent + tail, false)
  {
    Glue(" WHERE ", sent, tail);
    FrameIsClean(" WHERE ", sent + tail);
  }
}
