/** The analytics dashboard: the priority tally, the month tally in first-seen order, and
    the metrics state they feed. */
module Analytics {
  import opened Common

  /** Occurrences of `x` in `s`. */
  function CountOf(s: seq<string>, x: string): nat
  {
    if s == [] then 0 else CountOf(s[..|s| - 1], x) + (if s[|s| - 1] == x then 1 else 0)
  }

  lemma CountOfAppend(s: seq<string>, y: string, x: string)
    ensures CountOf(s + [y], x) == CountOf(s, x) + (if y == x then 1 else 0)
  {
    assert (s + [y])[..|s|] == s;
  }

  /** A value that does not occur is counted zero times. */
  lemma {:induction false} CountOfAbsent(s: seq<string>, x: string)
    requires x !in s
    ensures CountOf(s, x) == 0
  {
    if s != [] {
      assert x !in s[..|s| - 1];
      CountOfAbsent(s[..|s| - 1], x);
    }
  }

  predicate KnownPriority(p: string)
  {
    p == "low" || p == "medium" || p == "high"
  }

  /** Entries that are not one of the three priorities. */
  function CountUnknown(s: seq<string>): nat
  {
    if s == [] then 0 else CountUnknown(s[..|s| - 1]) + (if KnownPriority(s[|s| - 1]) then 0 else 1)
  }

  /** The distinct entries that are not one of the three priorities. */
  function UnknownSet(s: seq<string>): (r: set<string>)
    ensures forall p :: p in r <==> p in s && !KnownPriority(p)
  {
    if s == [] then {}
    else
      var last := s[|s| - 1];
      assert s == s[..|s| - 1] + [last];
      UnknownSet(s[..|s| - 1]) + (if KnownPriority(last) then {} else {last})
  }

  /** `counts` after `counts[alert.priority]++` over the rows: the three known counters, and
      the other keys the increments add to the object (their value is `NaN`, so only the
      set of keys is kept). */
  datatype PriorityCounts = PriorityCounts(low: nat, medium: nat, high: nat, extra: set<string>)

  const NoPriorities := PriorityCounts(0, 0, 0, {})

  /** What the priority tally should be, by counting. */
  function PriorityTally(s: seq<string>): PriorityCounts
  {
    PriorityCounts(CountOf(s, "low"), CountOf(s, "medium"), CountOf(s, "high"), UnknownSet(s))
  }

  /** Every row lands in exactly one place: the three counters and the unknown entries
      together account for all rows. */
  lemma {:induction false} PriorityTallyAccountsForAll(s: seq<string>)
    ensures var c := PriorityTally(s); c.low + c.medium + c.high + CountUnknown(s) == |s|
    ensures CountUnknown(s) == 0 <==> PriorityTally(s).extra == {}
  {
    if s != [] {
      var init := s[..|s| - 1];
      PriorityTallyAccountsForAll(init);
      var last := s[|s| - 1];
      assert s == init + [last];
      CountOfAppend(init, last, "low");
      CountOfAppend(init, last, "medium");
      CountOfAppend(init, last, "high");
      if !KnownPriority(last) {
        assert last in UnknownSet(s);
      }
    }
  }

  /** The priority step: `data?.forEach(alert => counts[alert.priority]++)`. With no data
      (a failed query) the counts stay at zero. */
  method TallyPriorities(data: Option<seq<string>>) returns (c: PriorityCounts)
    ensures data.None? ==> c == NoPriorities
    ensures data.Some? ==> c == PriorityTally(data.value)
  {
    c := NoPriorities;
    if data.None? {
      return;
    }
    var s := data.value;
    var i := 0;
    while i < |s|
      invariant 0 <= i <= |s|
      invariant c == PriorityTally(s[..i])
    {
      var p := s[i];
      assert s[..i + 1] == s[..i] + [p];
      CountOfAppend(s[..i], p, "low");
      CountOfAppend(s[..i], p, "medium");
      CountOfAppend(s[..i], p, "high");
      if p == "low" {
        c := c.(low := c.low + 1);
      } else if p == "medium" {
        c := c.(medium := c.medium + 1);
      } else if p == "high" {
        c := c.(high := c.high + 1);
      } else {
        c := c.(extra := c.extra + {p});
      }
      i := i + 1;
    }
    assert s[..|s|] == s;
  }

  /** The distinct entries of `s` in the order they first appear (a `Map`'s key order). */
  function FirstOccurrences(s: seq<string>): seq<string>
  {
    if s == [] then []
    else
      var p := FirstOccurrences(s[..|s| - 1]);
      if s[|s| - 1] in p then p else p + [s[|s| - 1]]
  }

  /** The key order holds every entry of `s`, and each only once. */
  lemma {:induction false} FirstOccurrencesFacts(s: seq<string>)
    ensures forall x :: x in FirstOccurrences(s) <==> x in s
    ensures forall i, j :: 0 <= i < j < |FirstOccurrences(s)| ==> FirstOccurrences(s)[i] != FirstOccurrences(s)[j]
  {
    if s != [] {
      var init := s[..|s| - 1];
      FirstOccurrencesFacts(init);
      assert s == init + [s[|s| - 1]];
    }
  }

  datatype MonthCount = MonthCount(month: string, count: nat)

  /** One entry per month in `order`, with that month's count in `s`. */
  function CountsFor(order: seq<string>, s: seq<string>): (r: seq<MonthCount>)
    ensures |r| == |order|
    ensures forall i :: 0 <= i < |order| ==> r[i] == MonthCount(order[i], CountOf(s, order[i]))
  {
    if order == [] then []
    else CountsFor(order[..|order| - 1], s) + [MonthCount(order[|order| - 1], CountOf(s, order[|order| - 1]))]
  }

  /** What the month tally should be: each month once, in first-seen order, with its count. */
  function MonthTally(s: seq<string>): seq<MonthCount>
  {
    CountsFor(FirstOccurrences(s), s)
  }

  function TotalCount(r: seq<MonthCount>): nat
  {
    if r == [] then 0 else TotalCount(r[..|r| - 1]) + r[|r| - 1].count
  }

  lemma CountsForSnoc(order: seq<string>, y: string, s: seq<string>)
    ensures CountsFor(order + [y], s) == CountsFor(order, s) + [MonthCount(y, CountOf(s, y))]
  {
    assert (order + [y])[..|order|] == order;
  }

  lemma TotalCountSnoc(r: seq<MonthCount>, e: MonthCount)
    ensures TotalCount(r + [e]) == TotalCount(r) + e.count
  {
    assert (r + [e])[..|r|] == r;
  }

  /** Adding one entry `x` to the data adds to the total over `order` once for every time
      `x` is listed there. */
  lemma {:induction false} TotalAfterAppend(order: seq<string>, s: seq<string>, x: string)
    ensures TotalCount(CountsFor(order, s + [x])) == TotalCount(CountsFor(order, s)) + CountOf(order, x)
    decreases |order|
  {
    if order != [] {
      var init := order[..|order| - 1];
      var y := order[|order| - 1];
      assert order == init + [y];
      TotalAfterAppend(init, s, x);
      CountsForSnoc(init, y, s + [x]);
      CountsForSnoc(init, y, s);
      TotalCountSnoc(CountsFor(init, s + [x]), MonthCount(y, CountOf(s + [x], y)));
      TotalCountSnoc(CountsFor(init, s), MonthCount(y, CountOf(s, y)));
      CountOfAppend(s, x, y);
      CountOfAppend(init, y, x);
    }
  }

  /** A value listed once in a list without repetitions is counted once. */
  lemma {:induction false} CountOfDistinct(order: seq<string>, x: string)
    requires forall i, j :: 0 <= i < j < |order| ==> order[i] != order[j]
    requires x in order
    ensures CountOf(order, x) == 1
  {
    var init := order[..|order| - 1];
    var y := order[|order| - 1];
    assert order == init + [y];
    CountOfAppend(init, y, x);
    if y == x {
      forall i | 0 <= i < |init| ensures init[i] != x {
        assert init[i] == order[i];
      }
      CountOfAbsent(init, x);
    } else {
      forall i, j | 0 <= i < j < |init| ensures init[i] != init[j] {
        assert init[i] == order[i] && init[j] == order[j];
      }
      CountOfDistinct(init, x);
    }
  }

  /** A row of an already listed month adds one to that month's entry. */
  lemma SeenMonthStep(init: seq<string>, x: string)
    requires x in FirstOccurrences(init)
    ensures TotalCount(MonthTally(init + [x])) == TotalCount(MonthTally(init)) + 1
  {
    var f := FirstOccurrences(init);
    FirstOccurrencesFacts(init);
    FirstOccurrencesAppend(init, x);
    TotalAfterAppend(f, init, x);
    CountOfDistinct(f, x);
    assert MonthTally(init + [x]) == CountsFor(f, init + [x]);
  }

  /** A row of a new month adds an entry with count one at the end. */
  lemma NewMonthStep(init: seq<string>, x: string)
    requires x !in FirstOccurrences(init)
    ensures TotalCount(MonthTally(init + [x])) == TotalCount(MonthTally(init)) + 1
  {
    var f := FirstOccurrences(init);
    FirstOccurrencesFacts(init);
    FirstOccurrencesAppend(init, x);
    TotalAfterAppend(f, init, x);
    CountOfAbsent(f, x);
    assert MonthTally(init + [x]) == CountsFor(f + [x], init + [x]);
    CountsForSnoc(f, x, init + [x]);
    TotalCountSnoc(CountsFor(f, init + [x]), MonthCount(x, CountOf(init + [x], x)));
    CountOfAbsent(init, x);
    CountOfAppend(init, x, x);
  }

  /** The month tally accounts for every row: its counts add up to the number of rows. */
  lemma {:induction false} MonthTallyTotal(s: seq<string>)
    ensures TotalCount(MonthTally(s)) == |s|
    decreases |s|
  {
    if s != [] {
      var init := s[..|s| - 1];
      var x := s[|s| - 1];
      assert s == init + [x];
      MonthTallyTotal(init);
      if x in FirstOccurrences(init) {
        SeenMonthStep(init, x);
      } else {
        NewMonthStep(init, x);
      }
    }
  }

  /** Every month in the tally occurs in the data, and every count is positive. */
  lemma MonthTallyEntriesOccur(s: seq<string>)
    ensures forall i :: 0 <= i < |MonthTally(s)| ==> MonthTally(s)[i].month in s && MonthTally(s)[i].count > 0
  {
    forall i | 0 <= i < |MonthTally(s)|
      ensures MonthTally(s)[i].month in s && MonthTally(s)[i].count > 0
    {
      var m := FirstOccurrences(s)[i];
      FirstOccurrencesFacts(s);
      assert m in s;
      CountOfPositive(s, m);
    }
  }

  lemma {:induction false} CountOfPositive(s: seq<string>, x: string)
    requires x in s
    ensures CountOf(s, x) > 0
  {
    var init := s[..|s| - 1];
    assert s == init + [s[|s| - 1]];
    if s[|s| - 1] != x {
      assert x in init;
      CountOfPositive(init, x);
    }
  }

  /** The month names of the rows, one per row. */
  function MonthsOf(createdAt: seq<int>, monthName: int -> string): (r: seq<string>)
    ensures |r| == |createdAt|
    ensures forall i :: 0 <= i < |createdAt| ==> r[i] == monthName(createdAt[i])
  {
    if createdAt == [] then []
    else MonthsOf(createdAt[..|createdAt| - 1], monthName) + [monthName(createdAt[|createdAt| - 1])]
  }

  lemma FirstOccurrencesAppend(s: seq<string>, m: string)
    ensures FirstOccurrences(s + [m]) == if m in FirstOccurrences(s) then FirstOccurrences(s) else FirstOccurrences(s) + [m]
  {
    assert (s + [m])[..|s|] == s;
  }

  /** `counts` and its key order are the tally of `seen`: the keys in first-seen order, each
      mapped to its number of occurrences. */
  ghost predicate TallyOf(counts: map<string, nat>, order: seq<string>, seen: seq<string>)
  {
    && order == FirstOccurrences(seen)
    && (forall k :: k in counts <==> k in order)
    && (forall k :: k in counts ==> counts[k] == CountOf(seen, k))
  }

  /** The counting loop of the month step: a map from month name to count, and the order in
      which its keys were first inserted. */
  method CountByMonth(ts: seq<int>, monthName: int -> string) returns (counts: map<string, nat>, order: seq<string>)
    ensures TallyOf(counts, order, MonthsOf(ts, monthName))
  {
    ghost var months := MonthsOf(ts, monthName);
    counts := map[];
    order := [];
    assert months[..0] == [];
    var i := 0;
    while i < |ts|
      invariant 0 <= i <= |ts|
      invariant TallyOf(counts, order, months[..i])
    {
      var m := monthName(ts[i]);
      ghost var seen := months[..i];
      assert months[i] == m;
      assert months[..i + 1] == seen + [m];
      counts, order := CountOne(counts, order, seen, m);
      i := i + 1;
    }
    assert months[..|ts|] == months;
  }

  /** One step of the counting loop: `counts.set(month, (counts.get(month) || 0) + 1)`. */
  method CountOne(counts: map<string, nat>, order: seq<string>, ghost seen: seq<string>, m: string)
    returns (counts': map<string, nat>, order': seq<string>)
    requires TallyOf(counts, order, seen)
    ensures TallyOf(counts', order', seen + [m])
  {
    FirstOccurrencesAppend(seen, m);
    forall k ensures CountOf(seen + [m], k) == CountOf(seen, k) + (if m == k then 1 else 0) {
      CountOfAppend(seen, m, k);
    }
    if m in counts {
      counts' := counts[m := counts[m] + 1];
      order' := order;
    } else {
      FirstOccurrencesFacts(seen);
      CountOfAbsent(seen, m);
      counts' := counts[m := 1];
      order' := order + [m];
    }
  }

  /** `Array.from(counts.entries()).map(...)`: the entries in key insertion order. */
  method EntriesInOrder(counts: map<string, nat>, order: seq<string>, ghost s: seq<string>) returns (r: seq<MonthCount>)
    requires forall m :: m in order ==> m in counts && counts[m] == CountOf(s, m)
    ensures r == CountsFor(order, s)
  {
    r := [];
    var j := 0;
    while j < |order|
      invariant 0 <= j <= |order|
      invariant r == CountsFor(order[..j], s)
    {
      assert order[..j + 1][..j] == order[..j];
      r := r + [MonthCount(order[j], counts[order[j]])];
      j := j + 1;
    }
    assert order[..|order|] == order;
  }

  /** The month step: count rows per month name in a map that remembers first insertion,
      then list its entries. `monthName` is the locale's long month name of a timestamp.
      With no data the list is empty. */
  method TallyMonths(data: Option<seq<int>>, monthName: int -> string) returns (r: seq<MonthCount>)
    ensures data.None? ==> r == []
    ensures data.Some? ==> r == MonthTally(MonthsOf(data.value, monthName))
  {
    if data.None? {
      return [];
    }
    var counts, order := CountByMonth(data.value, monthName);
    r := EntriesInOrder(counts, order, MonthsOf(data.value, monthName));
  }

  /** The dashboard's numbers; the per-zone breakdown is not part of this model. */
  datatype Metrics = Metrics(total: nat, byPriority: PriorityCounts, byMonth: seq<MonthCount>)

  const InitialMetrics := Metrics(0, NoPriorities, [])

  class AnalyticsState {
    var metrics: Metrics

    constructor ()
      ensures metrics == InitialMetrics
    {
      metrics := InitialMetrics;
    }

    /** `fetchMetrics`. `count` is the exact row count (`None` when the store answers
        `null`), `priorities` and `createdAt` the selected columns (`None` for a failed
        query), and `zoneStepThrows` whether the per-zone query throws. A throw is caught and
        leaves the metrics as they were. */
    method FetchMetrics(count: Option<nat>, priorities: Option<seq<string>>, createdAt: Option<seq<int>>,
                        monthName: int -> string, zoneStepThrows: bool)
      modifies this
      ensures zoneStepThrows ==> metrics == old(metrics)
      ensures !zoneStepThrows ==> metrics.total == (if count.Some? then count.value else 0)
      ensures !zoneStepThrows ==>
        metrics.byPriority == (if priorities.Some? then PriorityTally(priorities.value) else NoPriorities)
      ensures !zoneStepThrows ==>
        metrics.byMonth == (if createdAt.Some? then MonthTally(MonthsOf(createdAt.value, monthName)) else [])
    {
      var byPriority := TallyPriorities(priorities);
      if zoneStepThrows {
        return;
      }
      var byMonth := TallyMonths(createdAt, monthName);
      metrics := Metrics(if count.Some? then count.value else 0, byPriority, byMonth);
    }
  }
}
