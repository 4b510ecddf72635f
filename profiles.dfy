/** The profile graph of `gprof2dot.py`: functions keyed by id, each with
    an ordered list of outgoing calls, and the two passes `write_graph`
    runs over it before drawing: `estimates` (fill in each call's time,
    exactly where it is certain and conservatively elsewhere) and `prune`
    (drop light functions, then dangling and light calls). */
module Profiles {
  import opened Wrappers
  import opened Sequences

  type FunctionId = int

  /** A call edge. `totalTime` is None until known; `totalTimeEstimate`
      stands for the attribute `estimates` adds, absent before it runs. */
  datatype Call = Call(
    calleeId: FunctionId,
    ncalls: int,
    totalTime: Option<real>,
    totalTimeEstimate: Option<real>)

  /** `Call(callee_id, ncalls)`. */
  function NewCall(calleeId: FunctionId, ncalls: int): Call {
    Call(calleeId, ncalls, None, None)
  }

  /** A function. `selfCalls` stands for the attribute set only when gprof
      printed a recursive call count. */
  datatype Function = Function(
    id: FunctionId,
    name: string,
    totalTime: real,
    selfTime: real,
    ncalls: int,
    selfCalls: Option<int>,
    calls: seq<Call>)

  /** `Function(id, name)`. */
  function NewFunction(id: FunctionId, name: string): Function {
    Function(id, name, 0.0, 0.0, 0, None, [])
  }

  /** `Function.add_call` as written: it empties the call list and drops
      its argument. */
  function AddCall(f: Function, call: Call): (g: Function)
    ensures g.calls == []
    ensures g.(calls := f.calls) == f
  {
    f.(calls := [])
  }

  /** The call handed to `add_call` is not among the function's calls
      afterwards, and every call added earlier is lost. */
  lemma AddCallLosesCalls(f: Function, call: Call)
    ensures call !in AddCall(f, call).calls
    ensures forall c :: c in f.calls ==> c !in AddCall(f, call).calls
  {
  }

  /** What `add_call` is evidently meant to do, and what the parsers do
      inline with `function.calls.append(call)`. */
  function AppendCall(f: Function, call: Call): (g: Function)
    ensures |g.calls| == |f.calls| + 1 && g.calls[|f.calls|] == call
    ensures g.calls[..|f.calls|] == f.calls
    ensures g.(calls := f.calls) == f
  {
    f.(calls := f.calls + [call])
  }

  /** Appending keeps every earlier call and adds the new one last. */
  lemma AppendCallKeepsCalls(f: Function, call: Call)
    ensures call in AppendCall(f, call).calls
    ensures forall c :: c in f.calls ==> c in AppendCall(f, call).calls
    ensures IsSubseq(f.calls, AppendCall(f, call).calls)
  {
    var g := AppendCall(f, call);
    assert g.calls[|f.calls|] == call;
    PrefixIsSubseq(g.calls, |f.calls|);
  }

  /** Every function is stored under its own id. */
  ghost predicate KeyedById(fs: map<FunctionId, Function>) {
    forall id :: id in fs ==> fs[id].id == id
  }

  /** Every call leads to a function of the profile. */
  ghost predicate CallsResolve(fs: map<FunctionId, Function>) {
    forall id, i :: id in fs && 0 <= i < |fs[id].calls| ==> fs[id].calls[i].calleeId in fs
  }

  function Min(a: real, b: real): real {
    if a <= b then a else b
  }

  /** The exact time `estimates` can establish for `call` into `callee`:
      zero when the callee never ran or took no time, the callee's whole
      time when every call to it came through this edge, and otherwise what
      the parser supplied (possibly nothing). */
  function ExactTime(callee: Function, call: Call): (t: Option<real>)
    ensures call.totalTime.Some? ==> t.Some?
    ensures t.None? <==>
      call.totalTime.None? && callee.ncalls != 0 && callee.totalTime != 0.0 && call.ncalls != callee.ncalls
    ensures t.Some? && call.totalTime.None? ==> t.value == 0.0 || t.value == callee.totalTime
  {
    if callee.ncalls == 0 then Some(0.0)
    else if callee.totalTime == 0.0 then Some(0.0)
    else if call.ncalls == callee.ncalls then Some(callee.totalTime)
    else call.totalTime
  }

  /** One call after `estimates`: the exact time where it can be had, and
      an estimate that is the exact time when there is one and otherwise
      the smaller of the caller's and the callee's totals. */
  function EstimateCall(caller: Function, callee: Function, call: Call): (r: Call)
    ensures r.calleeId == call.calleeId && r.ncalls == call.ncalls
    ensures r.totalTime == ExactTime(callee, call)
    ensures r.totalTimeEstimate.Some?
    ensures r.totalTime.Some? ==> r.totalTimeEstimate == r.totalTime
    ensures r.totalTime.None? ==>
      r.totalTimeEstimate.value <= caller.totalTime && r.totalTimeEstimate.value <= callee.totalTime &&
      (r.totalTimeEstimate.value == caller.totalTime || r.totalTimeEstimate.value == callee.totalTime)
  {
    var t := ExactTime(callee, call);
    call.(totalTime := t, totalTimeEstimate := if t.Some? then t else Some(Min(caller.totalTime, callee.totalTime)))
  }

  /** A function after `estimates`: each call estimated, in place. */
  function EstimateFunction(fs: map<FunctionId, Function>, f: Function): (g: Function)
    requires forall i :: 0 <= i < |f.calls| ==> f.calls[i].calleeId in fs
    ensures g.(calls := f.calls) == f && |g.calls| == |f.calls|
  {
    f.(calls := seq(|f.calls|, i requires 0 <= i < |f.calls| =>
                    EstimateCall(f, fs[f.calls[i].calleeId], f.calls[i])))
  }

  /** The whole profile after `estimates`. */
  function EstimateAll(fs: map<FunctionId, Function>): (r: map<FunctionId, Function>)
    requires CallsResolve(fs)
    ensures r.Keys == fs.Keys
  {
    map id | id in fs :: EstimateFunction(fs, fs[id])
  }

  /** After `estimates` every call carries an estimate, calls still lead
      where they led, and a call whose exact time is still unknown is
      estimated at no more than its caller's and its callee's totals. */
  lemma EstimateAllSpec(fs: map<FunctionId, Function>)
    requires CallsResolve(fs)
    ensures CallsResolve(EstimateAll(fs))
    ensures forall id, i :: id in fs && 0 <= i < |fs[id].calls| ==>
      var c := EstimateAll(fs)[id].calls[i];
      c.calleeId == fs[id].calls[i].calleeId && c.totalTimeEstimate.Some? &&
      (c.totalTime.None? ==>
         c.totalTimeEstimate.value <= fs[id].totalTime &&
         c.totalTimeEstimate.value <= fs[c.calleeId].totalTime)
  {
    var r := EstimateAll(fs);
    forall id, i | id in r && 0 <= i < |r[id].calls| ensures r[id].calls[i].calleeId in r {
      assert r[id].calls[i] == EstimateCall(fs[id], fs[fs[id].calls[i].calleeId], fs[id].calls[i]);
    }
  }

  /** Running `estimates` a second time changes nothing. */
  lemma EstimateAllIdempotent(fs: map<FunctionId, Function>)
    requires CallsResolve(fs)
    ensures CallsResolve(EstimateAll(fs))
    ensures EstimateAll(EstimateAll(fs)) == EstimateAll(fs)
  {
    EstimateAllSpec(fs);
    var r := EstimateAll(fs);
    forall id | id in r ensures EstimateFunction(r, r[id]) == r[id] {
      var f, g := fs[id], r[id];
      var h := EstimateFunction(r, g);
      assert |h.calls| == |g.calls|;
      forall i | 0 <= i < |g.calls| ensures h.calls[i] == g.calls[i] {
        var callee := fs[f.calls[i].calleeId];
        assert g.calls[i] == EstimateCall(f, callee, f.calls[i]);
        assert r[f.calls[i].calleeId].(calls := callee.calls) == callee;
      }
    }
  }

  /** `prune` scales its thresholds, given as fractions, by the total
      running time. */
  function Threshold(totalTime: real, fraction: real): (t: real)
    ensures totalTime >= 0.0 && 0.0 <= fraction <= 1.0 ==> 0.0 <= t <= totalTime
  {
    totalTime * fraction
  }

  /** The functions `prune` keeps: those whose total reaches the node
      threshold. */
  function KeptFunctions(fs: map<FunctionId, Function>, nodeThres: real): (r: map<FunctionId, Function>)
    ensures forall id :: id in r <==> id in fs && fs[id].totalTime >= nodeThres
    ensures forall id :: id in r ==> r[id] == fs[id]
  {
    map id | id in fs && !(fs[id].totalTime < nodeThres) :: fs[id]
  }

  /** `prune` reads the estimate of every call from a kept function into a
      kept function. */
  ghost predicate EstimatesReadable(fs: map<FunctionId, Function>, nodeThres: real) {
    forall id, i ::
      (id in fs && fs[id].totalTime >= nodeThres && 0 <= i < |fs[id].calls| &&
       fs[id].calls[i].calleeId in fs && fs[fs[id].calls[i].calleeId].totalTime >= nodeThres) ==>
      fs[id].calls[i].totalTimeEstimate.Some?
  }

  /** A call survives when its callee is kept and its estimate reaches the
      edge threshold. */
  predicate KeepCall(c: Call, kept: set<FunctionId>, edgeThres: real)
    requires c.calleeId in kept ==> c.totalTimeEstimate.Some?
  {
    c.calleeId in kept && c.totalTimeEstimate.value >= edgeThres
  }

  /** The call list `prune` rebuilds: the surviving calls, in order. */
  function PrunedCalls(calls: seq<Call>, kept: set<FunctionId>, edgeThres: real): (r: seq<Call>)
    requires forall i :: 0 <= i < |calls| && calls[i].calleeId in kept ==> calls[i].totalTimeEstimate.Some?
    ensures |r| <= |calls|
  {
    if |calls| == 0 then []
    else
      PrunedCalls(calls[..|calls| - 1], kept, edgeThres) +
      (if KeepCall(calls[|calls| - 1], kept, edgeThres) then [calls[|calls| - 1]] else [])
  }

  /** The surviving calls are exactly the calls into kept functions whose
      estimate reaches the threshold, in their original relative order. */
  lemma {:induction false} PrunedCallsSpec(calls: seq<Call>, kept: set<FunctionId>, edgeThres: real)
    requires forall i :: 0 <= i < |calls| && calls[i].calleeId in kept ==> calls[i].totalTimeEstimate.Some?
    ensures forall c :: c in PrunedCalls(calls, kept, edgeThres) <==> c in calls && KeepCall(c, kept, edgeThres)
    ensures IsSubseq(PrunedCalls(calls, kept, edgeThres), calls)
  {
    if |calls| > 0 {
      var front, last := calls[..|calls| - 1], calls[|calls| - 1];
      assert calls == front + [last];
      PrunedCallsSpec(front, kept, edgeThres);
      var r := PrunedCalls(calls, kept, edgeThres);
      var rf := PrunedCalls(front, kept, edgeThres);
      if KeepCall(last, kept, edgeThres) {
        SubseqAppend(rf, front, last);
      } else {
        assert r == rf;
        SubseqAppendRight(rf, front, last);
      }
    } else {
      SubseqRefl(calls);
    }
  }

  /** The profile after `prune` with scaled thresholds. */
  function PruneAll(fs: map<FunctionId, Function>, nodeThres: real, edgeThres: real): (r: map<FunctionId, Function>)
    requires EstimatesReadable(fs, nodeThres)
    ensures r.Keys == KeptFunctions(fs, nodeThres).Keys
  {
    var kept := KeptFunctions(fs, nodeThres);
    map id | id in kept :: kept[id].(calls := PrunedCalls(kept[id].calls, kept.Keys, edgeThres))
  }

  /** After `prune`: exactly the functions whose total reaches the node
      threshold remain, unchanged except for their call lists; every call
      left leads to a remaining function and its estimate reaches the edge
      threshold; each call list is what survived of the old one, in order. */
  lemma PruneAllSpec(fs: map<FunctionId, Function>, nodeThres: real, edgeThres: real)
    requires EstimatesReadable(fs, nodeThres)
    ensures forall id :: id in PruneAll(fs, nodeThres, edgeThres) <==> id in fs && fs[id].totalTime >= nodeThres
    ensures forall id :: id in PruneAll(fs, nodeThres, edgeThres) ==>
      PruneAll(fs, nodeThres, edgeThres)[id].(calls := fs[id].calls) == fs[id] &&
      IsSubseq(PruneAll(fs, nodeThres, edgeThres)[id].calls, fs[id].calls)
    ensures CallsResolve(PruneAll(fs, nodeThres, edgeThres))
    ensures forall id, i :: id in PruneAll(fs, nodeThres, edgeThres) && 0 <= i < |PruneAll(fs, nodeThres, edgeThres)[id].calls| ==>
      PruneAll(fs, nodeThres, edgeThres)[id].calls[i].totalTimeEstimate.Some? &&
      PruneAll(fs, nodeThres, edgeThres)[id].calls[i].totalTimeEstimate.value >= edgeThres
  {
    var kept := KeptFunctions(fs, nodeThres);
    var r := PruneAll(fs, nodeThres, edgeThres);
    forall id | id in r
      ensures IsSubseq(r[id].calls, fs[id].calls)
      ensures forall i :: 0 <= i < |r[id].calls| ==>
        r[id].calls[i].calleeId in r && r[id].calls[i].totalTimeEstimate.Some? &&
        r[id].calls[i].totalTimeEstimate.value >= edgeThres
    {
      PrunedCallsSpec(kept[id].calls, kept.Keys, edgeThres);
      forall i | 0 <= i < |r[id].calls|
        ensures r[id].calls[i].calleeId in r && r[id].calls[i].totalTimeEstimate.Some?
        ensures r[id].calls[i].totalTimeEstimate.value >= edgeThres
      {
        assert r[id].calls[i] in r[id].calls;
      }
    }
  }

  /** Pruning a pruned profile again with the same thresholds changes
      nothing. */
  lemma PruneAllIdempotent(fs: map<FunctionId, Function>, nodeThres: real, edgeThres: real)
    requires EstimatesReadable(fs, nodeThres)
    ensures EstimatesReadable(PruneAll(fs, nodeThres, edgeThres), nodeThres)
    ensures PruneAll(PruneAll(fs, nodeThres, edgeThres), nodeThres, edgeThres) == PruneAll(fs, nodeThres, edgeThres)
  {
    PruneAllSpec(fs, nodeThres, edgeThres);
    var r := PruneAll(fs, nodeThres, edgeThres);
    var kept2 := KeptFunctions(r, nodeThres);
    assert kept2 == r;
    forall id | id in r ensures PrunedCalls(r[id].calls, r.Keys, edgeThres) == r[id].calls {
      PrunedCallsKeepsSurvivors(r[id].calls, r.Keys, edgeThres);
    }
  }

  /** A call list whose every call survives is left as it is. */
  lemma {:induction false} PrunedCallsKeepsSurvivors(calls: seq<Call>, kept: set<FunctionId>, edgeThres: real)
    requires forall i :: 0 <= i < |calls| ==>
      calls[i].calleeId in kept && calls[i].totalTimeEstimate.Some? && calls[i].totalTimeEstimate.value >= edgeThres
    ensures PrunedCalls(calls, kept, edgeThres) == calls
  {
    if |calls| > 0 {
      PrunedCallsKeepsSurvivors(calls[..|calls| - 1], kept, edgeThres);
      assert calls == calls[..|calls| - 1] + [calls[|calls| - 1]];
    }
  }

  /** After `estimates`, `prune` can read every estimate it needs, whatever
      the thresholds: the order `write_graph` runs them in is safe. */
  lemma EstimatesEnablePrune(fs: map<FunctionId, Function>, nodeThres: real)
    requires CallsResolve(fs)
    ensures EstimatesReadable(EstimateAll(fs), nodeThres)
  {
    EstimateAllSpec(fs);
  }

  /** The profile: the functions by id and the total running time. */
  class Profile {
    var functions: map<FunctionId, Function>
    var totalTime: real

    constructor ()
      ensures functions == map[] && totalTime == 0.0
    {
      functions := map[];
      totalTime := 0.0;
    }

    /** `add_function`: the id must be new; the function is stored under
        it and nothing else changes. */
    method AddFunction(f: Function)
      requires f.id !in functions
      modifies this
      ensures functions == old(functions)[f.id := f]
      ensures totalTime == old(totalTime)
      ensures old(KeyedById(functions)) ==> KeyedById(functions)
    {
      functions := functions[f.id := f];
    }

    /** `estimates`: every call of every function gets its exact time where
        it is certain and an estimate, in place. Every callee must be in the
        profile (the source raises KeyError otherwise). */
    method Estimates()
      requires CallsResolve(functions)
      modifies this
      ensures functions == EstimateAll(old(functions))
      ensures totalTime == old(totalTime)
    {
      ghost var fs0 := functions;
      var todo := functions.Keys;
      while todo != {}
        invariant todo <= fs0.Keys && functions.Keys == fs0.Keys
        invariant forall id :: id in fs0 && id !in todo ==> functions[id] == EstimateFunction(fs0, fs0[id])
        invariant forall id :: id in todo ==> functions[id] == fs0[id]
        invariant forall id :: id in functions ==>
          functions[id].ncalls == fs0[id].ncalls && functions[id].totalTime == fs0[id].totalTime
        invariant totalTime == old(totalTime)
        decreases todo
      {
        var id := Pick(todo);
        var f := functions[id];
        var calls := f.calls;
        var i := 0;
        while i < |calls|
          invariant 0 <= i <= |calls| == |f.calls|
          invariant forall j :: 0 <= j < i ==>
            calls[j] == EstimateCall(f, fs0[f.calls[j].calleeId], f.calls[j])
          invariant forall j :: i <= j < |calls| ==> calls[j] == f.calls[j]
        {
          var call := calls[i];
          var callee := functions[call.calleeId];
          var total := call.totalTime;
          if callee.ncalls == 0 {
            total := Some(0.0);
          } else if callee.totalTime == 0.0 {
            total := Some(0.0);
          } else if call.ncalls == callee.ncalls {
            total := Some(callee.totalTime);
          }
          var estimate;
          if total.Some? {
            estimate := total.value;
          } else {
            estimate := Min(f.totalTime, callee.totalTime);
          }
          calls := calls[i := call.(totalTime := total, totalTimeEstimate := Some(estimate))];
          i := i + 1;
        }
        assert calls == EstimateFunction(fs0, f).calls;
        functions := functions[id := f.(calls := calls)];
        todo := todo - {id};
      }
      assert functions.Keys == EstimateAll(fs0).Keys;
      assert forall k :: k in functions ==> functions[k] == EstimateAll(fs0)[k];
    }

    /** `prune`: both thresholds are fractions of the total time. Light
        functions are deleted first, over a snapshot of the ids; then every
        call list is rebuilt from the calls into remaining functions whose
        estimate reaches the edge threshold. */
    method Prune(nodeThres: real, edgeThres: real)
      requires EstimatesReadable(functions, Threshold(totalTime, nodeThres))
      modifies this
      ensures functions ==
        PruneAll(old(functions), Threshold(old(totalTime), nodeThres), Threshold(old(totalTime), edgeThres))
      ensures totalTime == old(totalTime)
    {
      var nodeT := Threshold(totalTime, nodeThres);
      var edgeT := Threshold(totalTime, edgeThres);
      ghost var fs0 := functions;
      DropLightFunctions(nodeT);
      PruneCalls(edgeT);
      assert functions.Keys == PruneAll(fs0, nodeT, edgeT).Keys;
      forall k | k in functions ensures functions[k] == PruneAll(fs0, nodeT, edgeT)[k] {
      }
    }

    /** The first loop of `prune`: delete every function whose total is
        below the threshold. */
    method DropLightFunctions(nodeT: real)
      modifies this
      ensures functions == KeptFunctions(old(functions), nodeT)
      ensures totalTime == old(totalTime)
    {
      ghost var fs0 := functions;
      var ids := functions.Keys;
      while ids != {}
        invariant ids <= fs0.Keys
        invariant forall id :: id in functions <==> id in fs0 && (id in ids || fs0[id].totalTime >= nodeT)
        invariant forall id :: id in functions ==> functions[id] == fs0[id]
        invariant totalTime == old(totalTime)
        decreases ids
      {
        var id := Pick(ids);
        if functions[id].totalTime < nodeT {
          functions := functions - {id};
        }
        ids := ids - {id};
      }
      forall k ensures k in functions <==> k in KeptFunctions(fs0, nodeT) {
        assert k !in ids;
      }
      assert functions.Keys == KeptFunctions(fs0, nodeT).Keys;
      forall k | k in functions ensures functions[k] == KeptFunctions(fs0, nodeT)[k] {
        assert k in KeptFunctions(fs0, nodeT);
      }
    }

    /** The second loop of `prune`: rebuild every call list from the calls
        into remaining functions whose estimate reaches the threshold. */
    method PruneCalls(edgeT: real)
      requires forall id, i ::
        (id in functions && 0 <= i < |functions[id].calls| && functions[id].calls[i].calleeId in functions) ==>
        functions[id].calls[i].totalTimeEstimate.Some?
      modifies this
      ensures functions.Keys == old(functions).Keys
      ensures forall id :: id in functions ==>
        functions[id] == old(functions)[id].(calls := PrunedCalls(old(functions)[id].calls, old(functions).Keys, edgeT))
      ensures totalTime == old(totalTime)
    {
      ghost var kept := functions;
      var todo := functions.Keys;
      while todo != {}
        invariant todo <= kept.Keys && functions.Keys == kept.Keys
        invariant forall id :: id in kept && id !in todo ==>
          functions[id] == kept[id].(calls := PrunedCalls(kept[id].calls, kept.Keys, edgeT))
        invariant forall id :: id in todo ==> functions[id] == kept[id]
        invariant totalTime == old(totalTime)
        decreases todo
      {
        var id := Pick(todo);
        var f := functions[id];
        var calls: seq<Call> := [];
        var i := 0;
        while i < |f.calls|
          invariant 0 <= i <= |f.calls|
          invariant calls == PrunedCalls(f.calls[..i], kept.Keys, edgeT)
        {
          var call := f.calls[i];
          if call.calleeId in functions {
            if call.totalTimeEstimate.value >= edgeT {
              calls := calls + [call];
            }
          }
          assert f.calls[..i + 1][..i] == f.calls[..i];
          i := i + 1;
        }
        assert f.calls[..i] == f.calls;
        functions := functions[id := f.(calls := calls)];
        todo := todo - {id};
      }
    }
  }

  /** The passes `Main.write_graph` runs on a parsed profile: `estimates`,
      then `prune` with the percentages turned into fractions. */
  method PreparePasses(profile: Profile, nodeThresPercent: real, edgeThresPercent: real)
    requires CallsResolve(profile.functions)
    modifies profile
    ensures profile.functions ==
      PruneAll(EstimateAll(old(profile.functions)),
               Threshold(old(profile.totalTime), nodeThresPercent / 100.0),
               Threshold(old(profile.totalTime), edgeThresPercent / 100.0))
  {
    ghost var fs0 := profile.functions;
    var nodeThres, edgeThres := nodeThresPercent / 100.0, edgeThresPercent / 100.0;
    profile.Estimates();
    EstimatesEnablePrune(fs0, Threshold(profile.totalTime, nodeThres));
    profile.Prune(nodeThres, edgeThres);
  }
}
