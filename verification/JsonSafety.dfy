/**
 The complexity and integer check that every JSON value passes before it is sent or used.

 The client walks the value with an explicit worklist. `Accepts` says the same recursively, by size,
 height and the numbers that occur.
 */
module JsonSafety {
  const MAX_VALUES: nat := 100_000
  const MAX_DEPTH: nat := 256
  const MAX_SAFE_INTEGER: int := 9_007_199_254_740_991

  /** A number is kept as a 64 bit integer where it fits one, and as a floating-point value otherwise. */
  datatype Number = Integer(n: int) | Float(r: real)

  datatype Json =
    | Null | Boolean(b: bool) | Text(s: string) | Numeric(number: Number)
    | Array(items: seq<Json>)
    | Object(keys: seq<string>, values: seq<Json>)

  function Children(v: Json): (kids: seq<Json>) {
    match v
    case Array(items) => items
    case Object(_, values) => values
    case _ => []
  }

  predicate Safe(x: Number) {
    match x
    case Integer(n) => -MAX_SAFE_INTEGER <= n <= MAX_SAFE_INTEGER
    case Float(r) => r.Floor as real == r ==> -MAX_SAFE_INTEGER <= r.Floor <= MAX_SAFE_INTEGER
  }

  // ----- The recursive definition -----

  function Size(v: Json): nat
    decreases v, 1
  {
    1 + (match v case Array(items) => Sizes(items) case Object(_, values) => Sizes(values) case _ => 0)
  }

  function Sizes(vs: seq<Json>): nat
    decreases vs, 0
  {
    if vs == [] then 0 else Size(vs[0]) + Sizes(vs[1..])
  }

  function Max(a: nat, b: nat): nat { if a < b then b else a }

  /** How many levels lie below the value. */
  function Height(v: Json): nat
    decreases v, 1
  {
    match v case Array(items) => Heights(items) case Object(_, values) => Heights(values) case _ => 0
  }

  function Heights(vs: seq<Json>): nat
    decreases vs, 0
  {
    if vs == [] then 0 else Max(1 + Height(vs[0]), Heights(vs[1..]))
  }

  predicate AllSafe(v: Json)
    decreases v, 1
  {
    match v
    case Numeric(x) => Safe(x)
    case Array(items) => EachSafe(items)
    case Object(_, values) => EachSafe(values)
    case _ => true
  }

  predicate EachSafe(vs: seq<Json>)
    decreases vs, 0
  {
    vs == [] || (AllSafe(vs[0]) && EachSafe(vs[1..]))
  }

  predicate Accepts(v: Json) {
    Size(v) <= MAX_VALUES && Height(v) <= MAX_DEPTH && AllSafe(v)
  }

  /** The parameters of a call: each value stands one level below the parameter list. */
  predicate AcceptsParams(vs: seq<Json>) {
    Sizes(vs) <= MAX_VALUES && Heights(vs) <= MAX_DEPTH && EachSafe(vs)
  }

  // ----- The worklist -----

  datatype Task = Task(value: Json, depth: nat)

  datatype Verdict = Accepted | TooManyValues | TooDeep | UnsafeInteger

  function Tasks(vs: seq<Json>, depth: nat): (ts: seq<Task>)
    ensures |ts| == |vs|
  {
    if vs == [] then [] else [Task(vs[0], depth)] + Tasks(vs[1..], depth)
  }

  function Total(ts: seq<Task>): nat {
    if ts == [] then 0 else Size(ts[0].value) + Total(ts[1..])
  }

  predicate Fits(t: Task) {
    t.depth + Height(t.value) <= MAX_DEPTH && AllSafe(t.value)
  }

  predicate AllFit(ts: seq<Task>) {
    forall t :: t in ts ==> Fits(t)
  }

  lemma {:induction false} TotalJoins(ts: seq<Task>, us: seq<Task>)
    ensures Total(ts + us) == Total(ts) + Total(us)
  {
    if ts == [] {
      assert ts + us == us;
    } else {
      assert (ts + us)[1..] == ts[1..] + us;
      TotalJoins(ts[1..], us);
    }
  }

  lemma {:induction false} TotalOfTasks(vs: seq<Json>, depth: nat)
    ensures Total(Tasks(vs, depth)) == Sizes(vs)
  {
    if vs != [] {
      assert Tasks(vs, depth)[1..] == Tasks(vs[1..], depth);
      TotalOfTasks(vs[1..], depth);
    }
  }

  lemma AllFitSplit(t: Task, ts: seq<Task>)
    ensures AllFit([t] + ts) <==> Fits(t) && AllFit(ts)
  {
    assert forall u :: u in [t] + ts <==> u == t || u in ts;
  }

  lemma {:induction false} TasksFit(vs: seq<Json>, depth: nat)
    requires depth <= MAX_DEPTH
    ensures AllFit(Tasks(vs, depth + 1)) <==> depth + Heights(vs) <= MAX_DEPTH && EachSafe(vs)
  {
    if vs != [] {
      TasksFit(vs[1..], depth);
      AllFitSplit(Task(vs[0], depth + 1), Tasks(vs[1..], depth + 1));
    }
  }

  /** A value within the depth limit fits exactly when its own number is safe and its children fit. */
  lemma FitsByParts(t: Task)
    requires t.depth <= MAX_DEPTH
    ensures Fits(t) <==> (t.value.Numeric? ==> Safe(t.value.number)) && AllFit(Tasks(Children(t.value), t.depth + 1))
  {
    TasksFit(Children(t.value), t.depth);
  }

  /** The worklist after its k-th task was taken and its children were added. */
  function Visit(ts: seq<Task>, k: nat): seq<Task>
    requires k < |ts|
  {
    ts[..k] + ts[k + 1..] + Tasks(Children(ts[k].value), ts[k].depth + 1)
  }

  lemma {:induction false} TotalWithout(ts: seq<Task>, k: nat)
    requires k < |ts|
    ensures Total(ts[..k] + ts[k + 1..]) + Size(ts[k].value) == Total(ts)
  {
    if k == 0 {
      assert ts[..k] + ts[k + 1..] == ts[1..];
    } else {
      assert (ts[..k] + ts[k + 1..])[1..] == ts[1..][..k - 1] + ts[1..][k..];
      TotalWithout(ts[1..], k - 1);
    }
  }

  lemma VisitShrinks(ts: seq<Task>, k: nat)
    requires k < |ts|
    ensures Total(Visit(ts, k)) + 1 == Total(ts)
  {
    TotalWithout(ts, k);
    TotalOfTasks(Children(ts[k].value), ts[k].depth + 1);
    TotalJoins(ts[..k] + ts[k + 1..], Tasks(Children(ts[k].value), ts[k].depth + 1));
  }

  lemma VisitKeepsFit(ts: seq<Task>, k: nat)
    requires k < |ts| && ts[k].depth <= MAX_DEPTH
    requires ts[k].value.Numeric? ==> Safe(ts[k].value.number)
    ensures AllFit(Visit(ts, k)) <==> AllFit(ts)
  {
    FitsByParts(ts[k]);
    var kids := Tasks(Children(ts[k].value), ts[k].depth + 1);
    var rest := ts[..k] + ts[k + 1..];
    assert forall t :: t in Visit(ts, k) <==> t in rest || t in kids;
    assert ts == ts[..k] + [ts[k]] + ts[k + 1..];
    assert forall t :: t in ts <==> t in rest || t == ts[k];
  }

  predicate OutOfRange(x: Number) {
    match x
    case Integer(n) =>
      (0 <= n && n > MAX_SAFE_INTEGER) || (n < 0 && -n > MAX_SAFE_INTEGER)
    case Float(r) =>
      r.Floor as real == r && (if r < 0.0 then -r else r) > MAX_SAFE_INTEGER as real
  }

  /** Takes the last task each time, as the client does. */
  method ValidateTasks(start: seq<Task>) returns (v: Verdict)
    ensures v.Accepted? <==> Total(start) <= MAX_VALUES && AllFit(start)
    ensures v.TooManyValues? ==> Total(start) > MAX_VALUES
    ensures v.TooDeep? || v.UnsafeInteger? ==> !AllFit(start)
  {
    hide Size, Height, Tasks;
    var pending := start;
    var visited := 0;
    while pending != []
      invariant visited <= MAX_VALUES && visited + Total(pending) == Total(start)
      invariant AllFit(pending) <==> AllFit(start)
      decreases Total(pending)
    {
      ghost var before := pending;
      var last := |pending| - 1;
      var task := pending[last];
      VisitShrinks(pending, last);
      pending := pending[..last];
      visited := visited + 1;
      if visited > MAX_VALUES {
        return TooManyValues;
      }
      if task.depth > MAX_DEPTH {
        assert task in before && !Fits(task);
        return TooDeep;
      }
      match task.value {
        case Numeric(x) =>
          if OutOfRange(x) {
            assert task in before && !Fits(task);
            return UnsafeInteger;
          }
        case Array(items) =>
          pending := pending + Tasks(items, task.depth + 1);
        case Object(_, values) =>
          pending := pending + Tasks(values, task.depth + 1);
        case _ =>
      }
      VisitKeepsFit(before, last);
      assert pending == Visit(before, last);
    }
    return Accepted;
  }

  method ValidateValue(root: Json) returns (v: Verdict)
    ensures v.Accepted? <==> Accepts(root)
    ensures v.TooManyValues? ==> Size(root) > MAX_VALUES
    ensures v.TooDeep? || v.UnsafeInteger? ==> Height(root) > MAX_DEPTH || !AllSafe(root)
  {
    var start := [Task(root, 0)];
    v := ValidateTasks(start);
    assert start[0] in start;
  }

  method ValidateParams(values: seq<Json>) returns (v: Verdict)
    ensures v.Accepted? <==> AcceptsParams(values)
  {
    TotalOfTasks(values, 1);
    TasksFit(values, 0);
    v := ValidateTasks(Tasks(values, 1));
  }

  // ----- Any other order -----

  /** The same walk when an arbitrary task is taken each time. */
  function Walk(ts: seq<Task>, visited: nat, order: nat -> nat): Verdict
    decreases Total(ts)
  {
    if ts == [] then Accepted
    else
      var k := order(visited) % |ts|;
      VisitShrinks(ts, k);
      if visited + 1 > MAX_VALUES then TooManyValues
      else if ts[k].depth > MAX_DEPTH then TooDeep
      else if ts[k].value.Numeric? && !Safe(ts[k].value.number) then UnsafeInteger
      else Walk(Visit(ts, k), visited + 1, order)
  }

  /** Whatever the order, the same values are accepted. */
  lemma {:induction false} OrderIsIrrelevant(ts: seq<Task>, visited: nat, order: nat -> nat)
    requires visited <= MAX_VALUES
    ensures Walk(ts, visited, order).Accepted? <==> visited + Total(ts) <= MAX_VALUES && AllFit(ts)
    decreases Total(ts)
  {
    if ts != [] {
      var k := order(visited) % |ts|;
      VisitShrinks(ts, k);
      assert ts[k] in ts;
      if visited + 1 <= MAX_VALUES && ts[k].depth <= MAX_DEPTH && (ts[k].value.Numeric? ==> Safe(ts[k].value.number)) {
        VisitKeepsFit(ts, k);
        OrderIsIrrelevant(Visit(ts, k), visited + 1, order);
      }
    }
  }

  /** Checking parameters differs from checking the array that holds them by one value at the size limit. */
  lemma ParamsAgainstArray(values: seq<Json>)
    ensures Accepts(Array(values)) <==> AcceptsParams(values) && Sizes(values) < MAX_VALUES
  {
  }
}
