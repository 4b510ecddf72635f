/** The profile-building half of `GprofParser.parse`: the call-graph
    entries and cycle headers read from gprof's text become a `Profile`.
    The regular-expression reading of the text itself is not modelled; the
    parser's `functions` and `cycles` tables are taken as given. */
module GprofParser {
  import opened Wrappers
  import opened Sequences
  import opened CallGraph
  import opened Profiles

  /** Every entry is stored under its own index, as `parse_function_entry`
      stores it. */
  predicate EntriesKeyed(entries: map<int, Entry>) {
    forall k :: k in entries ==> entries[k].index == k
  }

  /** What `parse` demands of the child lines: a child with a self time has
      a descendants time too (the `assert` in the loop), and a child with no
      entry of its own has a name for its placeholder function. */
  predicate ChildrenWellFormed(entries: map<int, Entry>) {
    forall k, i :: k in entries && 0 <= i < |entries[k].children| ==>
      (entries[k].children[i].self.Some? ==> entries[k].children[i].descendants.Some?) &&
      (entries[k].children[i].index !in entries ==> entries[k].children[i].name.Some?)
  }

  /** The call a child line becomes: its call count, and an exact time
      only when gprof printed the child's own times. */
  function ChildCall(child: ChildEntry): (call: Call)
    requires child.self.Some? ==> child.descendants.Some?
    ensures call.calleeId == child.index && call.ncalls == child.called
    ensures call.totalTimeEstimate.None?
    ensures call.totalTime.Some? <==> child.self.Some?
    ensures call.totalTime.Some? ==> call.totalTime.value == child.self.value + child.descendants.value
  {
    var call := NewCall(child.index, 0).(ncalls := child.called);
    if child.self.Some? then call.(totalTime := Some(child.self.value + child.descendants.value)) else call
  }

  /** The calls of an entry, one per child line, in order. */
  function ChildCalls(children: seq<ChildEntry>): (calls: seq<Call>)
    requires forall i :: 0 <= i < |children| ==> children[i].self.Some? ==> children[i].descendants.Some?
    ensures |calls| == |children|
    ensures forall i :: 0 <= i < |children| ==> calls[i] == ChildCall(children[i])
  {
    if |children| == 0 then [] else ChildCalls(children[..|children| - 1]) + [ChildCall(children[|children| - 1])]
  }

  /** The function `parse` builds for one entry. */
  function EntryFunction(cycles: map<int, CycleEntry>, e: Entry): (f: Function)
    requires forall i :: 0 <= i < |e.children| ==> e.children[i].self.Some? ==> e.children[i].descendants.Some?
    ensures f.id == e.index && f.name == e.name
    ensures f.totalTime == FunctionTotal(cycles, e) && f.selfTime == e.self
    ensures f.ncalls == (if e.called.Some? then e.called.value else 0)
    ensures f.selfCalls.Some? <==> e.called.Some? && e.calledSelf.Some?
    ensures f.selfCalls.Some? ==> f.selfCalls == e.calledSelf
    ensures |f.calls| == |e.children|
    ensures forall i :: 0 <= i < |e.children| ==>
      f.calls[i].calleeId == e.children[i].index && f.calls[i].ncalls == e.children[i].called
  {
    var f := NewFunction(e.index, e.name).(totalTime := FunctionTotal(cycles, e), selfTime := e.self);
    var f := if e.called.Some? then
               f.(ncalls := e.called.value, selfCalls := if e.calledSelf.Some? then e.calledSelf else None)
             else f;
    f.(calls := ChildCalls(e.children))
  }

  /** The names the child lines with index `k` give their callee. */
  ghost function ChildNames(entries: map<int, Entry>, k: int): set<string> {
    set e, i | e in entries && 0 <= i < |entries[e].children| &&
      entries[e].children[i].index == k && entries[e].children[i].name.Some? :: entries[e].children[i].name.value
  }

  /** `f` may be the placeholder `parse` creates for index `k`: `k` has no
      entry, and some child line names it. */
  ghost predicate IsPlaceholder(entries: map<int, Entry>, k: int, f: Function) {
    k !in entries && f == NewFunction(k, f.name) && f.name in ChildNames(entries, k)
  }

  /** `f` is a placeholder for index `m` named by one of `children`. */
  ghost predicate NamedByChild(children: seq<ChildEntry>, m: int, f: Function) {
    f == NewFunction(m, f.name) &&
    exists j :: 0 <= j < |children| && children[j].index == m && children[j].name == Some(f.name)
  }

  /** A placeholder named by a child of an entry is a placeholder of the
      whole table. */
  lemma NamedByEntryChild(entries: map<int, Entry>, k: int, m: int, f: Function)
    requires k in entries && m !in entries && NamedByChild(entries[k].children, m, f)
    ensures IsPlaceholder(entries, m, f)
  {
    var j :| 0 <= j < |entries[k].children| && entries[k].children[j].index == m &&
      entries[k].children[j].name == Some(f.name);
  }

  /** The placeholders the child lines of one entry write into the
      profile's table, in order; a later one for the same index replaces an
      earlier one. */
  function AddPlaceholders(fs: map<FunctionId, Function>, children: seq<ChildEntry>, entries: map<int, Entry>):
    (r: map<FunctionId, Function>)
    requires forall j :: 0 <= j < |children| && children[j].index !in entries ==> children[j].name.Some?
  {
    if |children| == 0 then fs
    else
      var r := AddPlaceholders(fs, children[..|children| - 1], entries);
      var c := children[|children| - 1];
      if c.index !in entries then r[c.index := NewFunction(c.index, c.name.value)] else r
  }

  /** Adding placeholders leaves entries' functions alone, removes nothing,
      gives every child without an entry a function, and every function it
      writes is a placeholder named by one of the children. */
  lemma {:induction false} AddPlaceholdersSpec(fs: map<FunctionId, Function>, children: seq<ChildEntry>, entries: map<int, Entry>)
    requires forall j :: 0 <= j < |children| && children[j].index !in entries ==> children[j].name.Some?
    ensures forall m :: m in entries ==>
      (m in AddPlaceholders(fs, children, entries) <==> m in fs) &&
      (m in fs ==> AddPlaceholders(fs, children, entries)[m] == fs[m])
    ensures forall m :: m in fs ==> m in AddPlaceholders(fs, children, entries)
    ensures forall j :: 0 <= j < |children| ==>
      children[j].index in AddPlaceholders(fs, children, entries) || children[j].index in entries
    ensures forall m :: m in AddPlaceholders(fs, children, entries) && m !in entries ==>
      (m in fs && AddPlaceholders(fs, children, entries)[m] == fs[m]) ||
      NamedByChild(children, m, AddPlaceholders(fs, children, entries)[m])
  {
    if |children| > 0 {
      var front := children[..|children| - 1];
      AddPlaceholdersSpec(fs, front, entries);
      var r := AddPlaceholders(fs, children, entries);
      var rf := AddPlaceholders(fs, front, entries);
      forall m | m in r && m !in entries
        ensures (m in fs && r[m] == fs[m]) || NamedByChild(children, m, r[m])
      {
        if m == children[|children| - 1].index {
          assert NamedByChild(children, m, r[m]);
        } else if !(m in fs && r[m] == fs[m]) {
          assert NamedByChild(front, m, rf[m]);
          var j :| 0 <= j < |front| && front[j].index == m && front[j].name == Some(rf[m].name);
          assert children[j] == front[j];
        }
      }
      forall j | 0 <= j < |children|
        ensures children[j].index in r || children[j].index in entries
      {
        if j < |front| {
          assert children[j] == front[j];
        }
      }
    }
  }

  /** Some child line has index `k`. */
  ghost predicate IsChildIndex(entries: map<int, Entry>, k: int) {
    exists e, i :: e in entries && 0 <= i < |entries[e].children| && entries[e].children[i].index == k
  }

  /** What holds of the profile's table while `parse` runs, with `todo`
      the entries not yet added: every added entry has its function, every
      other function is a placeholder, and every child of an added entry
      has a function or an entry still to come. */
  ghost predicate ParseInvariant(entries: map<int, Entry>, cycles: map<int, CycleEntry>, todo: set<int>,
                                 fs: map<FunctionId, Function>)
    requires ChildrenWellFormed(entries)
  {
    todo <= entries.Keys &&
    (forall k :: k in entries && k !in todo ==> k in fs && fs[k] == EntryFunction(cycles, entries[k])) &&
    (forall k :: k in fs ==> (k in entries && k !in todo) || IsPlaceholder(entries, k, fs[k])) &&
    (forall k, i :: k in entries && k !in todo && 0 <= i < |entries[k].children| ==>
      entries[k].children[i].index in fs || entries[k].children[i].index in entries)
  }

  /** One turn of `parse`'s loop keeps the invariant, and the entry's id is
      still free when `add_function` is called. */
  lemma ParseStep(entries: map<int, Entry>, cycles: map<int, CycleEntry>, todo: set<int>,
                  fs: map<FunctionId, Function>, k: int)
    requires ChildrenWellFormed(entries) && ParseInvariant(entries, cycles, todo, fs) && k in todo
    ensures k !in AddPlaceholders(fs, entries[k].children, entries)
    ensures ParseInvariant(entries, cycles, todo - {k},
      AddPlaceholders(fs, entries[k].children, entries)[k := EntryFunction(cycles, entries[k])])
  {
    var added := AddPlaceholders(fs, entries[k].children, entries);
    AddPlaceholdersSpec(fs, entries[k].children, entries);
    forall m | m in added && m !in entries && !(m in fs && added[m] == fs[m])
      ensures IsPlaceholder(entries, m, added[m])
    {
      NamedByEntryChild(entries, k, m, added[m]);
    }
  }

  /** When every entry is added, the table is the one `parse` promises. */
  lemma ParseDone(entries: map<int, Entry>, cycles: map<int, CycleEntry>, fs: map<FunctionId, Function>)
    requires ChildrenWellFormed(entries) && EntriesKeyed(entries) && ParseInvariant(entries, cycles, {}, fs)
    ensures forall k :: k in fs <==> k in entries || IsChildIndex(entries, k)
    ensures forall k :: k in entries ==> fs[k] == EntryFunction(cycles, entries[k])
    ensures forall k :: k in fs && k !in entries ==> IsPlaceholder(entries, k, fs[k])
    ensures KeyedById(fs) && CallsResolve(fs)
  {
    forall m | m in fs && m !in entries ensures IsChildIndex(entries, m) {
      assert fs[m].name in ChildNames(entries, m);
    }
    forall id, i | id in fs && 0 <= i < |fs[id].calls| ensures fs[id].calls[i].calleeId in fs {
      assert id in entries;
    }
  }

  /** `GprofParser` after `parse_cg`: the entries by index, the cycle
      headers by cycle number, and the total time from the granularity
      line. */
  class Parser {
    var functions: map<int, Entry>
    var cycles: map<int, CycleEntry>
    var total: real

    constructor (functions: map<int, Entry>, cycles: map<int, CycleEntry>, total: real)
      ensures this.functions == functions && this.cycles == cycles && this.total == total
    {
      this.functions := functions;
      this.cycles := cycles;
      this.total := total;
    }

    /** The body of `parse`'s loop for the entry stored under `k`, up to
        `add_function`: the function for the entry, with one call per child
        line, and a placeholder in the profile for every child with no
        entry of its own. */
    method BuildFunction(k: int, profile: Profile) returns (f: Function)
      requires k in functions && ChildrenWellFormed(functions)
      modifies profile
      ensures f == EntryFunction(cycles, functions[k])
      ensures profile.totalTime == old(profile.totalTime)
      ensures profile.functions == AddPlaceholders(old(profile.functions), functions[k].children, functions)
    {
      var entry := functions[k];
      f := NewFunction(entry.index, entry.name);
      f := f.(totalTime := FunctionTotal(cycles, entry), selfTime := entry.self);
      if entry.called.Some? {
        f := f.(ncalls := entry.called.value);
        if entry.calledSelf.Some? {
          f := f.(selfCalls := entry.calledSelf);
        }
      }
      ghost var target := EntryFunction(cycles, entry);
      assert f == target.(calls := []);
      ghost var pf0 := profile.functions;
      var i := 0;
      while i < |entry.children|
        invariant 0 <= i <= |entry.children|
        invariant profile.totalTime == old(profile.totalTime)
        invariant f == target.(calls := ChildCalls(entry.children[..i]))
        invariant profile.functions == AddPlaceholders(pf0, entry.children[..i], functions)
      {
        var child := entry.children[i];
        ghost var done := entry.children[..i + 1];
        assert done[..|done| - 1] == entry.children[..i] && done[|done| - 1] == child;
        f := AddChild(child, f, profile);
        i := i + 1;
      }
      assert entry.children[..i] == entry.children;
    }

    /** One child line of `parse`'s inner loop: a placeholder in the
        profile when the child has no entry, and its call appended to
        `f`. */
    method AddChild(child: ChildEntry, f: Function, profile: Profile) returns (g: Function)
      requires child.self.Some? ==> child.descendants.Some?
      requires child.index !in functions ==> child.name.Some?
      modifies profile
      ensures g == AppendCall(f, ChildCall(child))
      ensures profile.totalTime == old(profile.totalTime)
      ensures profile.functions == if child.index in functions then old(profile.functions)
        else old(profile.functions)[child.index := NewFunction(child.index, child.name.value)]
    {
      if child.index !in functions {
        profile.functions := profile.functions[child.index := NewFunction(child.index, child.name.value)];
      }
      var call := NewCall(child.index, 0);
      call := call.(ncalls := child.called);
      if child.self.Some? {
        call := call.(totalTime := Some(child.self.value + child.descendants.value));
      }
      g := AppendCall(f, call);
    }

    /** `parse` after `parse_cg`: one function per entry, and a placeholder
        for every callee gprof printed no entry for. Every call then leads
        to a function of the profile, so `estimates` can run on it. */
    method Parse() returns (profile: Profile)
      requires EntriesKeyed(functions) && ChildrenWellFormed(functions)
      ensures fresh(profile)
      ensures profile.totalTime == total
      ensures forall k :: k in profile.functions <==> k in functions || IsChildIndex(functions, k)
      ensures forall k :: k in functions ==> profile.functions[k] == EntryFunction(cycles, functions[k])
      ensures forall k :: k in profile.functions && k !in functions ==> IsPlaceholder(functions, k, profile.functions[k])
      ensures KeyedById(profile.functions) && CallsResolve(profile.functions)
    {
      profile := new Profile();
      profile.totalTime := total;
      var todo := functions.Keys;
      while todo != {}
        invariant fresh(profile) && profile.totalTime == total
        invariant ParseInvariant(functions, cycles, todo, profile.functions)
        decreases todo
      {
        var k := Pick(todo);
        ParseStep(functions, cycles, todo, profile.functions, k);
        var f := BuildFunction(k, profile);
        profile.AddFunction(f);
        todo := todo - {k};
      }
      ParseDone(functions, cycles, profile.functions);
    }
  }
}
