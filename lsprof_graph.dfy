/** The selection half of `lsprof2dot`'s `Main.write_graph`: which
    functions become nodes and which calls become edges, with the numbers
    their labels show. Colours, `%.02f` formatting and the DOT text itself
    are not part of this module; a node or edge is recorded as the values
    its label and colour are made from. */
module LsprofGraph {
  import opened Wrappers
  import opened Sequences
  import opened CallGraph
  import opened Names
  import opened Lsprof

  /** What `write_graph` works from: the parser's records, cycle table and
      total, and the options it consults. */
  datatype Graph = Graph(
    functions: map<int, Entry>,
    cycles: map<int, CycleEntry>,
    total: real,
    nodeThres: real,
    edgeThres: real,
    strip: bool)

  /** A node with its label's parts (name, total and self percentages,
      number of calls), or an edge with its label's parts (number of calls,
      and its percentage where the child line has times) and the
      percentage its colour is taken from. */
  datatype GraphItem =
    | NodeItem(index: int, name: string, totalPerc: real, selfPerc: real, count: Option<int>)
    | EdgeItem(src: int, dst: int, called: int, perc: Option<real>, colourPerc: real)

  function Percent(t: real, total: real): real
    requires total != 0.0
  {
    t / total * 100.0
  }

  /** Every callee has a record (the branch for a callee without one reads
      a `name` attribute `parse_entry` never sets, and so raises), and a
      child line with a self time has a descendants time. */
  predicate Resolves(g: Graph) {
    forall k :: k in g.functions ==> ChildrenReady(g, g.functions[k].children)
  }

  /** Under `Resolves`, every record's child lines are ready to draw. */
  lemma ReadyOf(g: Graph, k: int)
    requires Resolves(g) && k in g.functions
    ensures ChildrenReady(g, g.functions[k].children)
  {
  }

  /** The callees of `children` have records, and their timed lines have
      both times. */
  predicate ChildrenReady(g: Graph, children: seq<ChildEntry>) {
    forall i :: 0 <= i < |children| ==>
      children[i].index in g.functions && (children[i].self.Some? ==> children[i].descendants.Some?)
  }

  /** The name shown, after `compress_function_name` with the `strip`
      option (the `wrap` option is not modelled). */
  function DisplayName(g: Graph, name: string): string {
    if g.strip then StripSpec(name) else name
  }

  /** The number of invocations on a node's label: the calls, plus the
      recursive ones where known; none where the calls are unknown. */
  function CallCount(f: Entry): Option<int> {
    if f.called.None? then None
    else if f.calledSelf.None? then f.called
    else Some(f.called.value + f.calledSelf.value)
  }

  /** The node for `f`, unless its total percentage is below the node
      threshold. */
  function NodeFor(g: Graph, f: Entry): (r: Option<GraphItem>)
    requires g.total != 0.0
    ensures r.Some? <==> Percent(FunctionTotal(g.cycles, f), g.total) >= g.nodeThres
    ensures r.Some? ==> r.value.NodeItem? && r.value.index == f.index
  {
    var totalPerc := Percent(FunctionTotal(g.cycles, f), g.total);
    if totalPerc < g.nodeThres then None
    else Some(NodeItem(f.index, DisplayName(g, f.name), totalPerc, Percent(f.self, g.total), CallCount(f)))
  }

  /** The edge for one child line of `f`, unless the callee's node is
      dropped, or the call has times and its percentage is below the edge
      threshold. A call without times takes its colour from `f`. */
  function EdgeFor(g: Graph, f: Entry, child: ChildEntry): (r: Option<GraphItem>)
    requires g.total != 0.0 && child.index in g.functions
    requires child.self.Some? ==> child.descendants.Some?
    ensures r.Some? ==> r.value.EdgeItem? && r.value.src == f.index && r.value.dst == child.index
    ensures r.Some? ==> r.value.called == child.called && (r.value.perc.Some? <==> child.self.Some?)
    ensures r.Some? <==> (Percent(FunctionTotal(g.cycles, g.functions[child.index]), g.total) >= g.nodeThres &&
      (child.self.Some? ==> Percent(child.self.value + child.descendants.value, g.total) >= g.edgeThres))
    ensures r.Some? && r.value.perc.Some? ==> r.value.perc.value >= g.edgeThres
  {
    var destPerc := Percent(FunctionTotal(g.cycles, g.functions[child.index]), g.total);
    if destPerc < g.nodeThres then None
    else if child.self.Some? then
      var perc := Percent(child.self.value + child.descendants.value, g.total);
      if perc < g.edgeThres then None
      else Some(EdgeItem(f.index, child.index, child.called, Some(perc), perc))
    else Some(EdgeItem(f.index, child.index, child.called, None, Percent(FunctionTotal(g.cycles, f), g.total)))
  }

  /** The edges of the child lines `children` of `f`, in order. */
  function EdgesFor(g: Graph, f: Entry, children: seq<ChildEntry>): seq<GraphItem>
    requires g.total != 0.0 && ChildrenReady(g, children)
  {
    if |children| == 0 then []
    else
      var front := EdgesFor(g, f, children[..|children| - 1]);
      match EdgeFor(g, f, children[|children| - 1])
      case None => front
      case Some(e) => front + [e]
  }

  /** The edge for child line `j` of the record under `k`. */
  function EdgeAt(g: Graph, k: int, j: int): Option<GraphItem>
    requires Resolves(g) && g.total != 0.0 && k in g.functions
    requires 0 <= j < |g.functions[k].children|
  {
    ReadyOf(g, k);
    EdgeFor(g, g.functions[k], g.functions[k].children[j])
  }

  /** What one turn of the outer loop adds for the record under `k`: its
      node and the edges of its calls, or nothing. */
  function ItemsAt(g: Graph, k: int): seq<GraphItem>
    requires Resolves(g) && g.total != 0.0 && k in g.functions
  {
    ReadyOf(g, k);
    var f := g.functions[k];
    match NodeFor(g, f)
    case None => []
    case Some(n) => [n] + EdgesFor(g, f, f.children)
  }

  /** Everything the loop over the functions, in the order `order`,
      records. */
  function GraphItems(g: Graph, order: seq<int>): seq<GraphItem>
    requires Resolves(g) && (|order| == 0 || g.total != 0.0)
    requires forall i :: 0 <= i < |order| ==> order[i] in g.functions
  {
    if |order| == 0 then []
    else GraphItems(g, order[..|order| - 1]) + ItemsAt(g, order[|order| - 1])
  }

  /** The edges recorded are exactly the ones the child lines give. */
  lemma {:induction false} EdgesForMembers(g: Graph, f: Entry, children: seq<ChildEntry>, x: GraphItem)
    requires g.total != 0.0 && ChildrenReady(g, children)
    ensures x in EdgesFor(g, f, children) <==> exists i :: 0 <= i < |children| && EdgeFor(g, f, children[i]) == Some(x)
    decreases |children|
  {
    if |children| > 0 {
      var front := children[..|children| - 1];
      EdgesForMembers(g, f, front, x);
      if x in EdgesFor(g, f, children) && x !in EdgesFor(g, f, front) {
        assert EdgeFor(g, f, children[|children| - 1]) == Some(x);
      }
      if exists i :: 0 <= i < |children| && EdgeFor(g, f, children[i]) == Some(x) {
        var i :| 0 <= i < |children| && EdgeFor(g, f, children[i]) == Some(x);
        if i < |front| {
          assert front[i] == children[i];
        }
      }
    }
  }

  /** A turn records the record's node, and the edges of its child lines
      when the node is drawn, and nothing else. */
  lemma ItemsAtMembers(g: Graph, k: int, x: GraphItem)
    requires Resolves(g) && g.total != 0.0 && k in g.functions
    ensures x in ItemsAt(g, k) <==> (NodeFor(g, g.functions[k]) == Some(x) ||
      (NodeFor(g, g.functions[k]).Some? &&
       exists j :: 0 <= j < |g.functions[k].children| && EdgeAt(g, k, j) == Some(x)))
  {
    ReadyOf(g, k);
    var f := g.functions[k];
    EdgesForMembers(g, f, f.children, x);
    if x in EdgesFor(g, f, f.children) {
      var j :| 0 <= j < |f.children| && EdgeFor(g, f, f.children[j]) == Some(x);
      assert EdgeAt(g, k, j) == Some(x);
    }
    if exists j :: 0 <= j < |f.children| && EdgeAt(g, k, j) == Some(x) {
      var j :| 0 <= j < |f.children| && EdgeAt(g, k, j) == Some(x);
      assert EdgeFor(g, f, f.children[j]) == Some(x);
    }
  }

  /** Whatever is recorded was recorded by the turn for one of the
      functions. */
  lemma {:induction false} GraphItemsSound(g: Graph, order: seq<int>, x: GraphItem)
    requires Resolves(g) && g.total != 0.0
    requires forall i :: 0 <= i < |order| ==> order[i] in g.functions
    requires x in GraphItems(g, order)
    ensures exists i :: 0 <= i < |order| && x in ItemsAt(g, order[i])
  {
    var n := |order| - 1;
    var front := order[..n];
    assert GraphItems(g, order) == GraphItems(g, front) + ItemsAt(g, order[n]);
    if x !in ItemsAt(g, order[n]) {
      GraphItemsSound(g, front, x);
      var i :| 0 <= i < n && x in ItemsAt(g, front[i]);
      assert front[i] == order[i];
    }
  }

  /** Whatever the turn for a visited function records is recorded. */
  lemma {:induction false} GraphItemsComplete(g: Graph, order: seq<int>, i: int, x: GraphItem)
    requires Resolves(g) && g.total != 0.0
    requires forall i :: 0 <= i < |order| ==> order[i] in g.functions
    requires 0 <= i < |order| && x in ItemsAt(g, order[i])
    ensures x in GraphItems(g, order)
  {
    var n := |order| - 1;
    var front := order[..n];
    assert GraphItems(g, order) == GraphItems(g, front) + ItemsAt(g, order[n]);
    if i < n {
      assert front[i] == order[i];
      GraphItemsComplete(g, front, i, x);
    }
  }

  /** An item is recorded exactly when the turn for one of the functions
      records it. */
  lemma GraphItemsMembers(g: Graph, order: seq<int>, x: GraphItem)
    requires Resolves(g) && g.total != 0.0
    requires forall i :: 0 <= i < |order| ==> order[i] in g.functions
    ensures x in GraphItems(g, order) <==> exists i :: 0 <= i < |order| && x in ItemsAt(g, order[i])
  {
    if x in GraphItems(g, order) {
      GraphItemsSound(g, order, x);
    }
    if exists i :: 0 <= i < |order| && x in ItemsAt(g, order[i]) {
      var i :| 0 <= i < |order| && x in ItemsAt(g, order[i]);
      GraphItemsComplete(g, order, i, x);
    }
  }

  /** Every record is stored under its own index. */
  predicate Keyed(g: Graph) {
    forall k :: k in g.functions ==> g.functions[k].index == k
  }

  /** A function gets a node exactly when it is visited and its total
      percentage reaches the node threshold. */
  lemma NodesIff(g: Graph, order: seq<int>, k: int)
    requires Resolves(g) && Keyed(g) && g.total != 0.0
    requires forall i :: 0 <= i < |order| ==> order[i] in g.functions
    ensures (exists x :: x in GraphItems(g, order) && x.NodeItem? && x.index == k) <==>
      k in order && Percent(FunctionTotal(g.cycles, g.functions[k]), g.total) >= g.nodeThres
  {
    if exists x :: x in GraphItems(g, order) && x.NodeItem? && x.index == k {
      var x :| x in GraphItems(g, order) && x.NodeItem? && x.index == k;
      GraphItemsMembers(g, order, x);
      var i :| 0 <= i < |order| && x in ItemsAt(g, order[i]);
      ItemsAtMembers(g, order[i], x);
      if NodeFor(g, g.functions[order[i]]) != Some(x) {
        assert false;
      }
      assert order[i] == k;
    }
    if k in order && Percent(FunctionTotal(g.cycles, g.functions[k]), g.total) >= g.nodeThres {
      var i :| 0 <= i < |order| && order[i] == k;
      var x := NodeFor(g, g.functions[k]).value;
      ItemsAtMembers(g, k, x);
      GraphItemsMembers(g, order, x);
    }
  }

  /** Every edge leaves a function that has a node, leads to a function
      whose total percentage reaches the node threshold, comes from one of
      the source's child lines, and, where the call has times, reaches the
      edge threshold. */
  lemma EdgesSound(g: Graph, order: seq<int>, x: GraphItem)
    requires Resolves(g) && Keyed(g) && g.total != 0.0
    requires forall i :: 0 <= i < |order| ==> order[i] in g.functions
    requires x in GraphItems(g, order) && x.EdgeItem?
    ensures x.src in order && x.src in g.functions && NodeFor(g, g.functions[x.src]).Some?
    ensures exists j :: 0 <= j < |g.functions[x.src].children| && EdgeAt(g, x.src, j) == Some(x)
    ensures x.dst in g.functions && Percent(FunctionTotal(g.cycles, g.functions[x.dst]), g.total) >= g.nodeThres
    ensures x.perc.Some? ==> x.perc.value >= g.edgeThres
  {
    GraphItemsMembers(g, order, x);
    var i :| 0 <= i < |order| && x in ItemsAt(g, order[i]);
    var k := order[i];
    ItemsAtMembers(g, k, x);
    var j :| 0 <= j < |g.functions[k].children| && EdgeAt(g, k, j) == Some(x);
    ReadyOf(g, k);
    assert x.src == k;
  }

  /** Every child line of a visited function with a node that passes both
      thresholds gets its edge. */
  lemma EdgesComplete(g: Graph, order: seq<int>, i: int, j: int)
    requires Resolves(g) && g.total != 0.0
    requires forall i :: 0 <= i < |order| ==> order[i] in g.functions
    requires 0 <= i < |order| && NodeFor(g, g.functions[order[i]]).Some?
    requires 0 <= j < |g.functions[order[i]].children| && EdgeAt(g, order[i], j).Some?
    ensures EdgeAt(g, order[i], j).value in GraphItems(g, order)
  {
    var x := EdgeAt(g, order[i], j).value;
    ItemsAtMembers(g, order[i], x);
    GraphItemsMembers(g, order, x);
  }

  /** A node for a record derived from a cProfile entry shows the entry's
      whole call count, recursive calls included, and its cumulative time
      as total percentage. */
  lemma NodeShowsCallCount(g: Graph, f: Entry, pe: ProfilerEntry)
    requires g.total != 0.0 && g.cycles == map[] && DerivedFrom(f, pe) && NodeFor(g, f).Some?
    ensures NodeFor(g, f).value.count == Some(pe.callcount)
    ensures NodeFor(g, f).value.totalPerc == Percent(pe.totaltime, g.total)
  {
    DerivedTotals(f, pe);
  }

  /** As written, a leaf callee whose whole time is its own gets twice its
      share: with one second of inline and cumulative time out of a total
      of one second, its edge shows 200 percent. */
  lemma EdgeAsWrittenOverCounts()
    ensures var sub := SubEntry("f", 1, 0, 1.0, 1.0);
      var c := ChildAsWritten(sub, 0);
      Percent(c.self.value + c.descendants.value, 1.0) == 200.0
  {
  }

  /** The edge for a call of a record `parse` built from `pe` is drawn, and
      shows, by the call's cumulative time plus its inline time: the inline
      time counts twice. */
  lemma EdgeCountsInlineTwice(g: Graph, f: Entry, pe: ProfilerEntry, i: int)
    requires g.total != 0.0 && DerivedFrom(f, pe) && 0 <= i < |f.children| && f.children[i].index in g.functions
    ensures var sub := pe.calls[i]; var perc := Percent(sub.totaltime + sub.inlinetime, g.total);
      (EdgeFor(g, f, f.children[i]).Some? <==>
        Percent(FunctionTotal(g.cycles, g.functions[f.children[i].index]), g.total) >= g.nodeThres && perc >= g.edgeThres) &&
      (EdgeFor(g, f, f.children[i]).Some? ==> EdgeFor(g, f, f.children[i]).value.perc == Some(perc))
  {
    DerivedTotals(f, pe);
  }

  /** With the corrected callee records an edge never shows more than
      100 percent when the call's time is within the total. */
  lemma EdgePercentBounded(sub: SubEntry, index: int, total: real)
    requires 0.0 <= sub.totaltime <= total && total > 0.0
    ensures var c := ChildOf(sub, index);
      0.0 <= Percent(c.self.value + c.descendants.value, total) <= 100.0
  {
    var c := ChildOf(sub, index);
    assert c.self.value + c.descendants.value == sub.totaltime;
    assert sub.totaltime / total <= 1.0;
  }

  /** The inner loop of `write_graph` over the child lines of `fn`, whose
      own total percentage is `totalPerc`: a call into a function below the
      node threshold is skipped, and so is a timed call below the edge
      threshold. */
  method WriteEdges(g: Graph, fn: Entry, totalPerc: real) returns (edges: seq<GraphItem>)
    requires g.total != 0.0 && ChildrenReady(g, fn.children)
    requires totalPerc == Percent(FunctionTotal(g.cycles, fn), g.total)
    ensures edges == EdgesFor(g, fn, fn.children)
  {
    edges := [];
    var children := fn.children;
    var j := 0;
    while j < |children|
      invariant 0 <= j <= |children| && edges == EdgesFor(g, fn, children[..j])
    {
      assert children[..j + 1][..j] == children[..j];
      var child := children[j];
      var callee := g.functions[child.index];
      var perc := Percent(FunctionTotal(g.cycles, callee), g.total);
      if perc < g.nodeThres {
        j := j + 1;
        continue;
      }
      var edgePerc: Option<real> := None;
      var colourPerc := totalPerc;
      if child.self.Some? {
        var p := Percent(child.self.value + child.descendants.value, g.total);
        if p < g.edgeThres {
          j := j + 1;
          continue;
        }
        edgePerc := Some(p);
        colourPerc := p;
      }
      edges := edges + [EdgeItem(fn.index, child.index, child.called, edgePerc, colourPerc)];
      j := j + 1;
    }
    assert children[..j] == children;
  }

  /** One turn of `write_graph`'s outer loop, for the record under `k`:
      nothing when its total percentage is below the node threshold,
      otherwise its node and then its edges. */
  method WriteFunction(g: Graph, k: int) returns (added: seq<GraphItem>)
    requires Resolves(g) && g.total != 0.0 && k in g.functions
    ensures added == ItemsAt(g, k)
  {
    ReadyOf(g, k);
    var fn := g.functions[k];
    var totalPerc := Percent(FunctionTotal(g.cycles, fn), g.total);
    var selfPerc := Percent(fn.self, g.total);
    if totalPerc < g.nodeThres {
      return [];
    }
    var name := fn.name;
    if g.strip {
      name := StripFunctionName(name);
    }
    var count: Option<int> := None;
    if fn.called.Some? {
      var totalCalled := fn.called.value;
      if fn.calledSelf.Some? {
        totalCalled := totalCalled + fn.calledSelf.value;
      }
      count := Some(totalCalled);
    }
    var node := NodeItem(fn.index, name, totalPerc, selfPerc, count);
    assert NodeFor(g, fn) == Some(node);
    var edges := WriteEdges(g, fn, totalPerc);
    added := [node] + edges;
  }

  /** `order` visits every function exactly once, as iterating over the
      dictionary's values does. */
  predicate VisitsAll(g: Graph, order: seq<int>) {
    (forall k :: k in g.functions ==> k in order) &&
    (forall i :: 0 <= i < |order| ==> order[i] in g.functions) &&
    forall i, j :: 0 <= i < j < |order| ==> order[i] != order[j]
  }

  /** Over the whole dictionary, a function gets a node exactly when its
      total percentage reaches the node threshold. */
  lemma NodesIffAll(g: Graph, order: seq<int>, k: int)
    requires Resolves(g) && Keyed(g) && g.total != 0.0 && VisitsAll(g, order)
    ensures (exists x :: x in GraphItems(g, order) && x.NodeItem? && x.index == k) <==>
      k in g.functions && Percent(FunctionTotal(g.cycles, g.functions[k]), g.total) >= g.nodeThres
  {
    NodesIff(g, order, k);
  }

  /** `write_graph`'s loop over the functions, with the dictionary's
      iteration order given as `order`. */
  method WriteGraph(g: Graph, order: seq<int>) returns (items: seq<GraphItem>)
    requires Resolves(g) && (|order| == 0 || g.total != 0.0)
    requires VisitsAll(g, order)
    ensures items == GraphItems(g, order)
  {
    items := [];
    var i := 0;
    while i < |order|
      invariant 0 <= i <= |order| && items == GraphItems(g, order[..i])
    {
      assert order[..i + 1][..i] == order[..i];
      var added := WriteFunction(g, order[i]);
      items := items + added;
      i := i + 1;
    }
    assert order[..i] == order;
  }
}
