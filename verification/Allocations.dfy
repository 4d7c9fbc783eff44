/**
 * What the plugins get from OpenCost: per window a map of named allocations, decoded from JSON. And the
 * sums over such maps, which do not depend on the order a map is walked in.
 */
module Allocations {
  import opened Basics

  /** A decoded JSON value. */
  datatype Json = Number(number: real) | Text(text: string) | OtherJson

  type Allocation = map<string, Json>
  type Window = map<string, Allocation>

  function NumberAt(a: Allocation, field: string): Option<real> {
    if field in a && a[field].Number? then Some(a[field].number) else None
  }

  /** A type assertion with a blank second result: 0 unless the field is a number. */
  function NumberOrZero(a: Allocation, field: string): real {
    match NumberAt(a, field)
    case Some(x) => x
    case None => 0.0
  }

  /** A total cost counts exactly when the field is there and is a number. */
  lemma NumbersAreRead(a: Allocation, field: string)
    ensures forall x :: NumberAt(a, field) == Some(x) <==> field in a && a[field] == Number(x)
    ensures NumberAt(a, field) == None ==> NumberOrZero(a, field) == 0.0
    ensures forall x | NumberAt(a, field) == Some(x) :: NumberOrZero(a, field) == x
  {
  }

  function TextOrEmpty(a: Allocation, field: string): string {
    if field in a && a[field].Text? then a[field].text else ""
  }

  /** The buffer of a plugin's event channel. */
  const EVENT_BUFFER: nat := 100

  /** A send that gives up when the buffer is full. */
  function Offered<T>(queue: seq<T>, event: T): seq<T> {
    if |queue| < EVENT_BUFFER then queue + [event] else queue
  }

  /** The first of the events, as many as there is room for. */
  function Fitting<T>(queue: seq<T>, events: seq<T>): seq<T> {
    if |queue| >= EVENT_BUFFER then []
    else if |events| <= EVENT_BUFFER - |queue| then events
    else events[..EVENT_BUFFER - |queue|]
  }

  lemma OfferedNext<T>(queue: seq<T>, events: seq<T>, event: T)
    ensures Offered(queue + Fitting(queue, events), event) == queue + Fitting(queue, events + [event])
  {
    var room := EVENT_BUFFER - |queue|;
    if 0 < room <= |events| {
      assert (events + [event])[..room] == events[..room];
    }
  }

  /** A channel that holds 100 events takes the first of them that fit, in order, and drops the others. */
  lemma FittingFits<T>(queue: seq<T>, events: seq<T>)
    requires |queue| <= 100
    ensures Fitting(queue, events) == if |queue| + |events| <= 100 then events else events[..100 - |queue|]
    ensures |queue + Fitting(queue, events)| <= 100
  {
  }

  // ---------------------------------------------------------------- sums over maps

  ghost function Sum(m: map<string, real>): real {
    if m == map[] then 0.0
    else
      var k :| k in m;
      m[k] + Sum(m - {k})
  }

  lemma {:induction false} SumByAnyKey(m: map<string, real>, k: string)
    requires k in m
    ensures Sum(m) == m[k] + Sum(m - {k})
    decreases |m|
  {
    var j :| j in m && Sum(m) == m[j] + Sum(m - {j});
    if j != k {
      SumByAnyKey(m - {j}, k);
      SumByAnyKey(m - {k}, j);
      assert m - {j} - {k} == m - {k} - {j};
    }
  }

  function At(m: map<string, real>, k: string): real {
    if k in m then m[k] else 0.0
  }

  lemma SumWithout(m: map<string, real>, k: string)
    ensures Sum(m) == At(m, k) + Sum(m - {k})
  {
    if k in m {
      SumByAnyKey(m, k);
    } else {
      assert m - {k} == m;
    }
  }

  /** costs[ns] += x for every entry of another map. */
  function Merged(a: map<string, real>, b: map<string, real>): map<string, real> {
    map k | k in a.Keys + b.Keys :: At(a, k) + At(b, k)
  }

  lemma MergedWithout(a: map<string, real>, b: map<string, real>, k: string)
    ensures Merged(a, b) - {k} == Merged(a - {k}, b - {k})
    ensures At(Merged(a, b), k) == At(a, k) + At(b, k)
  {
  }

  lemma {:induction false} SumMerged(a: map<string, real>, b: map<string, real>)
    ensures Sum(Merged(a, b)) == Sum(a) + Sum(b)
    decreases |a| + |b|
  {
    if a == map[] && b == map[] {
      assert Merged(a, b) == map[];
    } else {
      var k := Member(a.Keys + b.Keys);
      MergedWithout(a, b, k);
      SumWithout(Merged(a, b), k);
      SumWithout(a, k);
      SumWithout(b, k);
      Shrinks(a, k);
      Shrinks(b, k);
      SumMerged(a - {k}, b - {k});
    }
  }

  ghost function Member<T>(s: set<T>): (x: T)
    requires s != {}
    ensures x in s
  {
    var x :| x in s; x
  }

  lemma Shrinks(m: map<string, real>, k: string)
    ensures |m - {k}| <= |m|
    ensures k in m ==> |m - {k}| < |m|
  {
    assert (m - {k}).Keys == m.Keys - {k};
    if k !in m {
      assert m - {k} == m;
    }
  }

  // ---------------------------------------------------------------- the costs in a response

  /** The total costs a window states. */
  function Charges(w: Window): map<string, real> {
    map ns | ns in w && NumberAt(w[ns], "totalCost").Some? :: NumberAt(w[ns], "totalCost").value
  }

  /** Everything that is charged in the windows. */
  ghost function Charged(data: seq<Window>): real {
    if data == [] then 0.0 else Charged(data[..|data| - 1]) + Sum(Charges(data[|data| - 1]))
  }
}
