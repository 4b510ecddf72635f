/** The call-graph entries both front ends build as `Struct` records before
    a profile exists: gprof's primary lines and cycle headers, and the
    records `lsprof2dot` derives from cProfile entries. Times are Python
    floats; they are only added and compared, so `real` stands for them. */
module CallGraph {
  import opened Wrappers

  /** A child (callee) line of an entry. `name` is absent in the records
      `lsprof2dot` builds; `self` and `descendants` are absent on gprof
      lines for recursive or intra-cycle calls. */
  datatype ChildEntry = ChildEntry(
    index: int,
    name: Option<string>,
    self: Option<real>,
    descendants: Option<real>,
    called: int,
    cycle: Option<int>)

  /** A primary entry: one function with its own and inherited time. */
  datatype Entry = Entry(
    index: int,
    name: string,
    self: real,
    descendants: real,
    called: Option<int>,
    calledSelf: Option<int>,
    cycle: Option<int>,
    children: seq<ChildEntry>)

  /** A `<cycle N as a whole>` entry. */
  datatype CycleEntry = CycleEntry(cycle: int, self: real, descendants: real)

  predicate NonNegative(e: Entry) {
    e.self >= 0.0 && e.descendants >= 0.0
  }

  predicate CyclesNonNegative(cycles: map<int, CycleEntry>) {
    forall n :: n in cycles ==> cycles[n].self >= 0.0 && cycles[n].descendants >= 0.0
  }

  /** `function_total`: the time spent in a function and its descendants.
      A member of a cycle is charged the whole cycle's time, and nothing
      when gprof printed no entry for its cycle. */
  function FunctionTotal(cycles: map<int, CycleEntry>, e: Entry): (t: real)
    ensures NonNegative(e) && CyclesNonNegative(cycles) ==> t >= 0.0
    ensures e.cycle.None? && e.descendants >= 0.0 ==> t >= e.self
  {
    match e.cycle
    case Some(n) =>
      if n in cycles then cycles[n].self + cycles[n].descendants else 0.0
    case None => e.self + e.descendants
  }

  /** All members of one cycle are charged the same total, whatever their
      own times. */
  lemma CycleMembersShareTotal(cycles: map<int, CycleEntry>, e1: Entry, e2: Entry)
    requires e1.cycle.Some? && e1.cycle == e2.cycle
    ensures FunctionTotal(cycles, e1) == FunctionTotal(cycles, e2)
  {
  }

  /** A function outside every cycle is charged its own time plus its
      descendants', independently of the cycle table. */
  lemma AcyclicTotalIgnoresCycles(c1: map<int, CycleEntry>, c2: map<int, CycleEntry>, e: Entry)
    requires e.cycle.None?
    ensures FunctionTotal(c1, e) == FunctionTotal(c2, e) == e.self + e.descendants
  {
  }
}
