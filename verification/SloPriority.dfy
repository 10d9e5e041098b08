/** SLO classes, their priorities, and the inversion to the instance schedulers' convention
    (sim/slo_priority.go). */
module SloPriority {
  import opened Requests
  import opened Scheduler

  datatype SLOPriorityMap = SLOPriorityMap(priorities: map<string, int>, defaultPri: int, maxPri: int) {
    function Priority(cls: string): int {
      if cls in priorities then priorities[cls] else defaultPri
    }

    predicate IsSheddable(cls: string) {
      Priority(cls) < 0
    }

    function InvertForVLLM(cls: string): int {
      maxPri - Priority(cls)
    }

    /** `maxPri` is the largest priority any class can have. */
    predicate Valid() {
      IsMaximum(priorities, defaultPri, maxPri)
    }
  }

  predicate IsMaximum(priorities: map<string, int>, defaultPri: int, m: int) {
    && defaultPri <= m
    && (forall cls :: cls in priorities ==> priorities[cls] <= m)
    && (m == defaultPri || exists cls :: cls in priorities && priorities[cls] == m)
  }

  const DEFAULT_PRIORITIES: map<string, int> :=
    map["critical" := 4, "standard" := 3, "batch" := -1, "sheddable" := -2, "background" := -3]

  const DEFAULT_PRIORITY := 3

  method FindMaximum(priorities: map<string, int>, defaultPri: int) returns (maxPri: int)
    ensures IsMaximum(priorities, defaultPri, maxPri)
  {
    maxPri := defaultPri;
    var left := priorities.Keys;
    while left != {}
      invariant left <= priorities.Keys && defaultPri <= maxPri
      invariant forall cls :: cls in priorities && cls !in left ==> priorities[cls] <= maxPri
      invariant maxPri == defaultPri || exists cls :: cls in priorities && priorities[cls] == maxPri
      decreases left
    {
      var cls :| cls in left;
      if priorities[cls] > maxPri {
        maxPri := priorities[cls];
      }
      left := left - {cls};
    }
  }

  method DefaultSLOPriorityMap() returns (m: SLOPriorityMap)
    ensures m.Valid() && m.priorities == DEFAULT_PRIORITIES && m.defaultPri == DEFAULT_PRIORITY
  {
    var maxPri := FindMaximum(DEFAULT_PRIORITIES, DEFAULT_PRIORITY);
    m := SLOPriorityMap(DEFAULT_PRIORITIES, DEFAULT_PRIORITY, maxPri);
  }

  predicate InRange(overrides: map<string, int>) {
    forall cls :: cls in overrides ==> -100 <= overrides[cls] <= 100
  }

  /** The defaults with the overrides on top; None (the panic) as soon as one is out of range. */
  method NewSLOPriorityMap(overrides: map<string, int>) returns (r: Option<SLOPriorityMap>)
    ensures r.Some? <==> InRange(overrides)
    ensures r.Some? ==> r.value.Valid() && r.value.defaultPri == DEFAULT_PRIORITY
    ensures r.Some? ==> r.value.priorities == DEFAULT_PRIORITIES + overrides
  {
    var m := DefaultSLOPriorityMap();
    var priorities := m.priorities;
    var left := overrides.Keys;
    while left != {}
      invariant left <= overrides.Keys
      invariant forall cls :: cls in overrides && cls !in left ==> -100 <= overrides[cls] <= 100
      invariant priorities.Keys == DEFAULT_PRIORITIES.Keys + (overrides.Keys - left)
      invariant forall cls :: cls in priorities ==>
                  priorities[cls] == if cls in overrides && cls !in left then overrides[cls] else DEFAULT_PRIORITIES[cls]
      decreases left
    {
      var cls :| cls in left;
      if overrides[cls] < -100 || overrides[cls] > 100 {
        return None;
      }
      priorities := priorities[cls := overrides[cls]];
      left := left - {cls};
    }
    assert priorities == DEFAULT_PRIORITIES + overrides;
    var maxPri := FindMaximum(priorities, m.defaultPri);
    r := Some(SLOPriorityMap(priorities, m.defaultPri, maxPri));
  }

  /** Inverted values are never negative, and some class has value 0, the most urgent one. */
  lemma InvertedFromZero(m: SLOPriorityMap)
    requires m.Valid()
    ensures forall cls :: m.InvertForVLLM(cls) >= 0
    ensures exists cls :: m.InvertForVLLM(cls) == 0
  {
    if m.maxPri != m.defaultPri {
      var cls :| cls in m.priorities && m.priorities[cls] == m.maxPri;
      assert m.InvertForVLLM(cls) == 0;
    } else {
      var cls := UnknownClass(m.priorities.Keys);
      assert m.InvertForVLLM(cls) == 0;
    }
  }

  /** Without overrides: critical before standard before batch before sheddable before background, an unknown
      class as standard, and the last three sheddable. */
  lemma DefaultInversion(m: SLOPriorityMap, unknown: string)
    requires m.Valid() && m.priorities == DEFAULT_PRIORITIES && m.defaultPri == DEFAULT_PRIORITY
    requires unknown !in {"critical", "standard", "batch", "sheddable", "background"}
    ensures m.InvertForVLLM("critical") == 0 && m.InvertForVLLM("standard") == 1 && m.InvertForVLLM("batch") == 5
    ensures m.InvertForVLLM("sheddable") == 6 && m.InvertForVLLM("background") == 7 && m.InvertForVLLM(unknown) == 1
    ensures m.IsSheddable("batch") && m.IsSheddable("sheddable") && m.IsSheddable("background")
    ensures !m.IsSheddable("critical") && !m.IsSheddable("standard") && !m.IsSheddable(unknown)
  {
    assert m.priorities["critical"] == 4;
  }

  /** Some class name is in no given finite set. */
  lemma UnknownClass(known: set<string>) returns (cls: string)
    ensures cls !in known
  {
    var left := known;
    var n: nat := 0;
    while left != {}
      invariant forall s :: s in known - left ==> |s| < n
      decreases left
    {
      var s :| s in left;
      n := if |s| >= n then |s| + 1 else n;
      left := left - {s};
    }
    cls := seq(n, _ => 'x');
    assert |cls| == n;
  }

  /** A map and the requests whose priority field EnqueueRequest filled from it. */
  predicate Inverted(m: SLOPriorityMap, classOf: Request -> string, s: seq<Request>) {
    forall r :: r in s ==> r.priority == m.InvertForVLLM(classOf(r))
  }

  /** For every override map: PriorityFCFS serves by descending SLO priority, and by arrival among
      equals; so nobody sheddable is ahead of somebody who is not. */
  lemma PriorityFcfsIsDescendingSlo(m: SLOPriorityMap, classOf: Request -> string, s: seq<Request>)
    requires DistinctIds(s) && Inverted(m, classOf, s)
    ensures var t := Ordered(PriorityFcfs, s);
            && multiset(t) == multiset(s)
            && forall i, j :: 0 <= i < j < |t| ==>
                 m.Priority(classOf(t[i])) > m.Priority(classOf(t[j]))
                 || (m.Priority(classOf(t[i])) == m.Priority(classOf(t[j])) && t[i].arrivalTime <= t[j].arrivalTime)
    ensures var t := Ordered(PriorityFcfs, s);
            forall i, j :: 0 <= i < j < |t| && m.IsSheddable(classOf(t[i])) ==> m.IsSheddable(classOf(t[j]))
  {
    hide StableSort, LexLess;
    SortSorted(PriorityFcfs, s);
    var t := StableSort(PriorityFcfs, s);
    forall i, j | 0 <= i < j < |t|
      ensures m.Priority(classOf(t[i])) > m.Priority(classOf(t[j]))
              || (m.Priority(classOf(t[i])) == m.Priority(classOf(t[j])) && t[i].arrivalTime <= t[j].arrivalTime)
    {
      assert Before(PriorityFcfs, t[i], t[j]);
      assert t[i] in multiset(s) && t[j] in multiset(s);
    }
  }
}
