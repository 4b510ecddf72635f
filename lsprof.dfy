/** `lsprof2dot.Parser`: cProfile's entries become call-graph records of
    the same shape gprof's entries have. The records come from
    `Profile.getstats()`; each entry's and each sub-entry's `name` (what
    `Parser.label` makes of its code object through `inspect`) is taken as
    given. */
module Lsprof {
  import opened Wrappers
  import opened CallGraph
  import opened Interning

  /** One callee of a cProfile entry. */
  datatype SubEntry = SubEntry(name: string, callcount: int, reccallcount: int, totaltime: real, inlinetime: real)

  /** One cProfile entry; `calls` is empty where cProfile gives `None`. */
  datatype ProfilerEntry = ProfilerEntry(
    name: string,
    callcount: int,
    reccallcount: int,
    totaltime: real,
    inlinetime: real,
    calls: seq<SubEntry>)

  /** Python's two-argument `max`: the first argument unless the second is
      larger. */
  function RealMax(a: real, b: real): (r: real)
    ensures r >= a && r >= b && (r == a || r == b)
  {
    if b > a then b else a
  }

  /** The callee record `parse_entry` builds AS WRITTEN: its descendants
      time is the sub-entry's whole cumulative time. */
  function ChildAsWritten(sub: SubEntry, index: int): ChildEntry {
    ChildEntry(index, None, Some(sub.inlinetime), Some(sub.totaltime), sub.callcount, None)
  }

  /** The callee record built the way the entry's own record is: the
      descendants time is the cumulative time less the inline time, so that
      self and descendants add up to the time of the call. This is the
      evidently intended record; the parser builds `ChildAsWritten`. */
  function ChildOf(sub: SubEntry, index: int): (c: ChildEntry)
    ensures c.index == index && c.name.None? && c.cycle.None? && c.called == sub.callcount
    ensures c.self == Some(sub.inlinetime) && c.descendants.Some?
    ensures c.self.value + c.descendants.value == sub.totaltime
  {
    ChildEntry(index, None, Some(sub.inlinetime), Some(sub.totaltime - sub.inlinetime), sub.callcount, None)
  }

  /** As written, a callee's self plus descendants time counts its inline
      time twice. */
  lemma ChildAsWrittenDoubleCounts(sub: SubEntry, index: int)
    ensures var c := ChildAsWritten(sub, index);
      c.self.value + c.descendants.value == sub.totaltime + sub.inlinetime
    ensures sub.inlinetime > 0.0 ==>
      ChildAsWritten(sub, index).self.value + ChildAsWritten(sub, index).descendants.value > sub.totaltime
  {
  }

  /** What the records of `e` are when derived from the cProfile entry
      `pe`: a reference statement, independent of the order in which
      `parse_entry` builds them. */
  predicate DerivedFrom(e: Entry, pe: ProfilerEntry) {
    e.name == pe.name && e.self == pe.inlinetime && e.descendants == pe.totaltime - pe.inlinetime &&
    e.called == Some(pe.callcount - pe.reccallcount) && e.calledSelf == Some(pe.reccallcount) &&
    e.cycle.None? && |e.children| == |pe.calls| &&
    forall i :: 0 <= i < |pe.calls| ==> e.children[i] == ChildAsWritten(pe.calls[i], e.children[i].index)
  }

  /** A derived record charges the entry its cumulative time and counts
      all its calls, but charges each of its calls its cumulative time plus
      its inline time. */
  lemma DerivedTotals(e: Entry, pe: ProfilerEntry)
    requires DerivedFrom(e, pe)
    ensures FunctionTotal(map[], e) == pe.totaltime
    ensures e.called.value + e.calledSelf.value == pe.callcount
    ensures forall i :: 0 <= i < |e.children| ==>
      e.children[i].self.value + e.children[i].descendants.value == pe.calls[i].totaltime + pe.calls[i].inlinetime
  {
  }

  /** The callee records of `calls`, interning each label in order, and
      the table afterwards. */
  function ChildrenOf(ids: map<string, int>, calls: seq<SubEntry>): (r: (map<string, int>, seq<ChildEntry>))
    ensures |r.1| == |calls|
    ensures forall i :: 0 <= i < |calls| ==> r.1[i] == ChildAsWritten(calls[i], r.1[i].index)
    ensures forall i :: 0 <= i < |calls| ==> calls[i].name in r.0 && r.0[calls[i].name] == r.1[i].index
    ensures ids.Keys <= r.0.Keys && forall k :: k in ids ==> r.0[k] == ids[k]
  {
    if |calls| == 0 then (ids, [])
    else
      var front := ChildrenOf(ids, calls[..|calls| - 1]);
      var last := calls[|calls| - 1];
      var (ids', index) := Intern(front.0, last.name);
      assert forall i :: 0 <= i < |calls| - 1 ==> calls[..|calls| - 1][i] == calls[i];
      (ids', front.1 + [ChildAsWritten(last, index)])
  }

  /** Interning the callees' labels adds only those labels to the table. */
  lemma {:induction false} ChildrenOfKeys(ids: map<string, int>, calls: seq<SubEntry>)
    ensures forall k :: k in ChildrenOf(ids, calls).0 ==> k in ids || exists i :: 0 <= i < |calls| && calls[i].name == k
  {
    if |calls| > 0 {
      var front := calls[..|calls| - 1];
      ChildrenOfKeys(ids, front);
      forall k | k in ChildrenOf(ids, calls).0 && k !in ids && k != calls[|calls| - 1].name
        ensures exists i :: 0 <= i < |calls| && calls[i].name == k
      {
        var i :| 0 <= i < |front| && front[i].name == k;
        assert calls[i] == front[i];
      }
    }
  }

  /** Interning the labels of the calls keeps the table dense. */
  lemma {:induction false} ChildrenOfDense(ids: map<string, int>, calls: seq<SubEntry>)
    requires Dense(ids)
    ensures Dense(ChildrenOf(ids, calls).0)
  {
    if |calls| > 0 {
      ChildrenOfDense(ids, calls[..|calls| - 1]);
      InternDense(ChildrenOf(ids, calls[..|calls| - 1]).0, calls[|calls| - 1].name);
    }
  }

  /** The record `parse_entry` builds for `pe`, and the table after
      interning its label and then its callees' labels. */
  function EntryOf(ids: map<string, int>, pe: ProfilerEntry): (r: (map<string, int>, Entry))
    ensures DerivedFrom(r.1, pe)
    ensures pe.name in r.0 && r.0[pe.name] == r.1.index
    ensures ids.Keys <= r.0.Keys && forall k :: k in ids ==> r.0[k] == ids[k]
    ensures forall i :: 0 <= i < |pe.calls| ==>
      pe.calls[i].name in r.0 && r.0[pe.calls[i].name] == r.1.children[i].index
  {
    var (ids1, index) := Intern(ids, pe.name);
    var (ids2, children) := ChildrenOf(ids1, pe.calls);
    (ids2, Entry(index, pe.name, pe.inlinetime, pe.totaltime - pe.inlinetime,
                 Some(pe.callcount - pe.reccallcount), Some(pe.reccallcount), None, children))
  }

  /** The parser's tables. */
  datatype ParseState = ParseState(functions: map<int, Entry>, total: real, indexes: map<string, int>)

  /** `parse_entry`: the running maximum of the cumulative times, then
      the record stored under the entry's index. */
  function ParseEntrySpec(s: ParseState, pe: ProfilerEntry): ParseState {
    var total := RealMax(pe.totaltime, s.total);
    var (ids, e) := EntryOf(s.indexes, pe);
    ParseState(s.functions[e.index := e], total, ids)
  }

  /** `parse`: every entry in turn. */
  function ParseAllSpec(s: ParseState, entries: seq<ProfilerEntry>): ParseState {
    if |entries| == 0 then s else ParseEntrySpec(ParseAllSpec(s, entries[..|entries| - 1]), entries[|entries| - 1])
  }

  /** The ids are dense, every record is stored under its own index, which
      is its label's id, and every callee's index is an id handed out. */
  ghost predicate WellFormed(s: ParseState) {
    Dense(s.indexes) && s.total >= 0.0 &&
    forall k :: k in s.functions ==>
      s.functions[k].index == k && s.functions[k].name in s.indexes && s.indexes[s.functions[k].name] == k &&
      forall i :: 0 <= i < |s.functions[k].children| ==> s.functions[k].children[i].index in s.indexes.Values
  }

  /** The records already stored stay well formed under a table that
      keeps every id it had. */
  lemma OldRecordsKeep(s: ParseState, ids: map<string, int>)
    requires WellFormed(s)
    requires forall n :: n in s.indexes ==> n in ids && ids[n] == s.indexes[n]
    ensures forall k :: k in s.functions ==>
      s.functions[k].name in ids && ids[s.functions[k].name] == k &&
      forall i :: 0 <= i < |s.functions[k].children| ==> s.functions[k].children[i].index in ids.Values
  {
    forall k, i | k in s.functions && 0 <= i < |s.functions[k].children|
      ensures s.functions[k].children[i].index in ids.Values
    {
      var v := s.functions[k].children[i].index;
      var n :| n in s.indexes && s.indexes[n] == v;
      assert ids[n] == v;
    }
  }

  /** The record `parse_entry` builds is stored under its label's id, and
      its callees' indexes are ids handed out. */
  lemma NewRecordKeeps(ids: map<string, int>, pe: ProfilerEntry)
    ensures var (ids', e) := EntryOf(ids, pe);
      e.name in ids' && ids'[e.name] == e.index &&
      forall i :: 0 <= i < |e.children| ==> e.children[i].index in ids'.Values
  {
    var (ids', e) := EntryOf(ids, pe);
    forall i | 0 <= i < |e.children| ensures e.children[i].index in ids'.Values {
      assert ids'[pe.calls[i].name] == e.children[i].index;
    }
  }

  /** `parse_entry` keeps the tables well formed. */
  lemma ParseEntryKeeps(s: ParseState, pe: ProfilerEntry)
    requires WellFormed(s)
    ensures WellFormed(ParseEntrySpec(s, pe))
  {
    var ids1 := Intern(s.indexes, pe.name).0;
    InternDense(s.indexes, pe.name);
    ChildrenOfDense(ids1, pe.calls);
    var (ids, e) := EntryOf(s.indexes, pe);
    OldRecordsKeep(s, ids);
    NewRecordKeeps(s.indexes, pe);
  }

  /** `parse` keeps the tables well formed. */
  lemma {:induction false} ParseAllKeeps(s: ParseState, entries: seq<ProfilerEntry>)
    requires WellFormed(s)
    ensures WellFormed(ParseAllSpec(s, entries))
  {
    if |entries| > 0 {
      ParseAllKeeps(s, entries[..|entries| - 1]);
      ParseEntryKeeps(ParseAllSpec(s, entries[..|entries| - 1]), entries[|entries| - 1]);
    }
  }

  /** The running maximum of the cumulative times of `entries`, from `t`. */
  function RunningMax(t: real, entries: seq<ProfilerEntry>): real {
    if |entries| == 0 then t else RealMax(entries[|entries| - 1].totaltime, RunningMax(t, entries[..|entries| - 1]))
  }

  /** `parse` leaves `total` at the running maximum. */
  lemma {:induction false} ParseAllTotal(s: ParseState, entries: seq<ProfilerEntry>)
    ensures ParseAllSpec(s, entries).total == RunningMax(s.total, entries)
  {
    if |entries| > 0 {
      ParseAllTotal(s, entries[..|entries| - 1]);
    }
  }

  /** The running maximum bounds its start and every cumulative time. */
  lemma {:induction false} RunningMaxBound(t: real, entries: seq<ProfilerEntry>)
    ensures RunningMax(t, entries) >= t
    ensures forall j :: 0 <= j < |entries| ==> RunningMax(t, entries) >= entries[j].totaltime
  {
    if |entries| > 0 {
      var front := entries[..|entries| - 1];
      RunningMaxBound(t, front);
      forall j | 0 <= j < |entries| ensures RunningMax(t, entries) >= entries[j].totaltime {
        if j < |front| {
          assert entries[j] == front[j];
        }
      }
    }
  }

  /** `total` ends at least as large as every entry's cumulative time and
      as what it was. */
  lemma ParseAllTotalBound(s: ParseState, entries: seq<ProfilerEntry>)
    ensures ParseAllSpec(s, entries).total >= s.total
    ensures forall j :: 0 <= j < |entries| ==> ParseAllSpec(s, entries).total >= entries[j].totaltime
  {
    ParseAllTotal(s, entries);
    RunningMaxBound(s.total, entries);
  }

  /** ... and it is one of them: what it was or some entry's cumulative
      time. With the bound, `total` is the running maximum. */
  lemma {:induction false} ParseAllTotalAttained(s: ParseState, entries: seq<ProfilerEntry>)
    ensures ParseAllSpec(s, entries).total == s.total ||
      exists j :: 0 <= j < |entries| && ParseAllSpec(s, entries).total == entries[j].totaltime
  {
    if |entries| > 0 {
      var front := entries[..|entries| - 1];
      ParseAllTotalAttained(s, front);
      var t, t0 := ParseAllSpec(s, entries).total, ParseAllSpec(s, front).total;
      assert t == RealMax(entries[|entries| - 1].totaltime, t0);
      if t != s.total && t != entries[|entries| - 1].totaltime {
        var j :| 0 <= j < |front| && t0 == front[j].totaltime;
        assert entries[j] == front[j];
      }
    }
  }

  /** One `parse_entry`: earlier ids and records stay, the entry's label
      gets a record derived from it, and every other record is untouched. */
  lemma ParseEntryRecords(s: ParseState, pe: ProfilerEntry)
    ensures var after := ParseEntrySpec(s, pe);
      pe.name in after.indexes && after.indexes[pe.name] in after.functions &&
      (forall n :: n in s.indexes ==> n in after.indexes && after.indexes[n] == s.indexes[n]) &&
      s.functions.Keys <= after.functions.Keys &&
      forall k :: k in after.functions ==>
        (k in s.functions && after.functions[k] == s.functions[k]) || DerivedFrom(after.functions[k], pe)
  {
    var (ids, e) := EntryOf(s.indexes, pe);
    assert ParseEntrySpec(s, pe) == ParseState(s.functions[e.index := e], RealMax(pe.totaltime, s.total), ids);
  }

  /** After `parse` every entry's label has an id with a record under
      it. */
  lemma {:induction false} ParseAllLabels(s: ParseState, entries: seq<ProfilerEntry>)
    ensures forall j :: 0 <= j < |entries| ==>
      entries[j].name in ParseAllSpec(s, entries).indexes &&
      ParseAllSpec(s, entries).indexes[entries[j].name] in ParseAllSpec(s, entries).functions
  {
    if |entries| > 0 {
      var front := entries[..|entries| - 1];
      var pe := entries[|entries| - 1];
      ParseAllLabels(s, front);
      var before, after := ParseAllSpec(s, front), ParseAllSpec(s, entries);
      assert after == ParseEntrySpec(before, pe);
      ParseEntryRecords(before, pe);
      forall j | 0 <= j < |entries|
        ensures entries[j].name in after.indexes && after.indexes[entries[j].name] in after.functions
      {
        if j < |front| {
          var name := entries[j].name;
          assert front[j] == entries[j];
          assert name in before.indexes && before.indexes[name] in before.functions;
          assert after.indexes[name] == before.indexes[name];
        }
      }
    }
  }

  /** After `parse` every record is either one that was there before,
      untouched, or derived from one of the entries. */
  lemma {:induction false} ParseAllFunctions(s: ParseState, entries: seq<ProfilerEntry>)
    ensures forall k :: k in ParseAllSpec(s, entries).functions ==>
      (k in s.functions && ParseAllSpec(s, entries).functions[k] == s.functions[k]) ||
      exists j :: 0 <= j < |entries| && DerivedFrom(ParseAllSpec(s, entries).functions[k], entries[j])
  {
    if |entries| > 0 {
      var front := entries[..|entries| - 1];
      var pe := entries[|entries| - 1];
      ParseAllFunctions(s, front);
      var before, after := ParseAllSpec(s, front), ParseAllSpec(s, entries);
      assert after == ParseEntrySpec(before, pe);
      ParseEntryRecords(before, pe);
      forall k | k in after.functions
        ensures (k in s.functions && after.functions[k] == s.functions[k]) ||
          exists j :: 0 <= j < |entries| && DerivedFrom(after.functions[k], entries[j])
      {
        if !(k in before.functions && after.functions[k] == before.functions[k]) {
          assert DerivedFrom(after.functions[k], entries[|entries| - 1]);
        } else if !(k in s.functions && after.functions[k] == s.functions[k]) {
          var j :| 0 <= j < |front| && DerivedFrom(before.functions[k], front[j]);
          assert entries[j] == front[j];
        }
      }
    }
  }

  /** `lsprof2dot.Parser`: the entries from `getstats()`, the records by
      index, the (always empty) cycle table, the largest cumulative time,
      and the ids handed out per label. */
  class Parser {
    const entries: seq<ProfilerEntry>
    var functions: map<int, Entry>
    var cycles: map<int, CycleEntry>
    var total: real
    var indexes: map<string, int>

    function State(): ParseState
      reads this
    {
      ParseState(functions, total, indexes)
    }

    constructor (entries: seq<ProfilerEntry>)
      ensures this.entries == entries && cycles == map[]
      ensures State() == ParseState(map[], 0.0, map[]) && WellFormed(State())
    {
      this.entries := entries;
      functions := map[];
      cycles := map[];
      total := 0.0;
      indexes := map[];
    }

    /** `index`: the id of `name`, handed out on first sight. */
    method Index(name: string) returns (index: int)
      modifies this
      ensures (indexes, index) == Intern(old(indexes), name)
      ensures functions == old(functions) && total == old(total) && cycles == old(cycles)
    {
      if name in indexes {
        index := indexes[name];
      } else {
        index := |indexes|;
        indexes := indexes[name := index];
      }
    }

    /** The loop over the sub-entries in `parse_entry`: one callee record
        per sub-entry, interning each label in order. */
    method BuildChildren(calls: seq<SubEntry>) returns (children: seq<ChildEntry>)
      modifies this
      ensures (indexes, children) == ChildrenOf(old(indexes), calls)
      ensures functions == old(functions) && total == old(total) && cycles == old(cycles)
    {
      children := [];
      var i := 0;
      while i < |calls|
        invariant 0 <= i <= |calls|
        invariant (indexes, children) == ChildrenOf(old(indexes), calls[..i])
        invariant functions == old(functions) && total == old(total) && cycles == old(cycles)
      {
        var sub := calls[i];
        var callee := Index(sub.name);
        assert calls[..i + 1][..i] == calls[..i];
        children := children + [ChildAsWritten(sub, callee)];
        i := i + 1;
      }
      assert calls[..i] == calls;
    }

    /** `parse_entry`. */
    method ParseEntry(pe: ProfilerEntry)
      modifies this
      ensures State() == ParseEntrySpec(old(State()), pe) && cycles == old(cycles)
    {
      total := RealMax(pe.totaltime, total);
      var index := Index(pe.name);
      var children := BuildChildren(pe.calls);
      var e := Entry(index, pe.name, pe.inlinetime, pe.totaltime - pe.inlinetime,
                     Some(pe.callcount - pe.reccallcount), Some(pe.reccallcount), None, children);
      functions := functions[index := e];
    }

    /** `parse`: every entry in the order `getstats()` gave them. */
    method Parse()
      modifies this
      ensures State() == ParseAllSpec(old(State()), entries) && cycles == old(cycles)
    {
      var i := 0;
      while i < |entries|
        invariant 0 <= i <= |entries|
        invariant State() == ParseAllSpec(old(State()), entries[..i]) && cycles == old(cycles)
      {
        ParseEntry(entries[i]);
        assert entries[..i + 1][..i] == entries[..i];
        i := i + 1;
      }
      assert entries[..i] == entries;
    }
  }
}
