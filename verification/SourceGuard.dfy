/** The source guard's worklist over the call graph of a candidate's functions. */
module SourceGuard {
  import opened Wrappers

  /** What was collected in one function's body: the qualified names it calls
      (none for a computed callee), whether it launches a kernel, and the names
      its return statements load. */
  datatype FunctionFacts = FunctionFacts(calls: seq<Option<string>>, launches: bool, returned: set<string>)

  type Facts = map<string, FunctionFacts>

  const ALLOCATORS := {"torch.empty", "torch.empty_like", "torch.empty_strided"}

  datatype Finding = MissingOutputAllocator | InvalidHostReturn

  // ---------- what the worklist is meant to compute ----------

  predicate Calls(facts: Facts, caller: string, callee: string) {
    caller in facts && callee in facts && Some(callee) in facts[caller].calls
  }

  /** A chain of calls from the first function to the last. */
  ghost predicate IsCallPath(facts: Facts, path: seq<string>) {
    && path != [] && path[0] in facts
    && forall i | 0 < i < |path| :: Calls(facts, path[i - 1], path[i])
  }

  ghost predicate ReachableBy(facts: Facts, entry: string, name: string, path: seq<string>) {
    IsCallPath(facts, path) && path[0] == entry && path[|path| - 1] == name
  }

  ghost predicate Reachable(facts: Facts, entry: string, name: string) {
    exists path :: ReachableBy(facts, entry, name, path)
  }

  lemma EntryIsReachable(facts: Facts, entry: string)
    requires entry in facts
    ensures Reachable(facts, entry, entry)
  {
    assert ReachableBy(facts, entry, entry, [entry]);
  }

  lemma CalleeIsReachable(facts: Facts, entry: string, caller: string, callee: string)
    requires Reachable(facts, entry, caller) && Calls(facts, caller, callee)
    ensures Reachable(facts, entry, callee)
  {
    var path :| ReachableBy(facts, entry, caller, path);
    assert ReachableBy(facts, entry, callee, path + [callee]);
  }

  /** A set that holds the entry and is closed under calls holds every function
      a call path leads to. */
  lemma {:induction false} ClosedSetHoldsPath(facts: Facts, names: set<string>, path: seq<string>)
    requires IsCallPath(facts, path) && path[0] in names
    requires forall caller, callee | caller in names && Calls(facts, caller, callee) :: callee in names
    ensures path[|path| - 1] in names
    decreases |path|
  {
    if |path| > 1 {
      var front := path[..|path| - 1];
      assert IsCallPath(facts, front);
      ClosedSetHoldsPath(facts, names, front);
      assert Calls(facts, path[|path| - 2], path[|path| - 1]);
    }
  }

  // ---------- the worklist ----------

  /** Computes exactly the functions reachable from the entry. */
  method ReachableFrom(facts: Facts, entry: string) returns (reachable: set<string>)
    ensures reachable <= facts.Keys
    ensures forall name :: name in reachable <==> Reachable(facts, entry, name)
  {
    reachable := {};
    var queue := [entry];
    if entry in facts {
      EntryIsReachable(facts, entry);
    }
    while queue != []
      invariant reachable <= facts.Keys
      invariant entry in facts ==> entry in reachable || entry in queue
      invariant forall name | name in reachable :: Reachable(facts, entry, name)
      invariant forall name | name in queue && name in facts :: Reachable(facts, entry, name)
      invariant forall caller, callee | caller in reachable && Calls(facts, caller, callee) ::
                  callee in reachable || callee in queue
      decreases facts.Keys - reachable, |queue|
    {
      var name := queue[0];
      ghost var waiting := queue;
      queue := queue[1..];
      assert forall other | other in waiting :: other == name || other in queue;
      if name in facts && name !in reachable {
        reachable := reachable + {name};
        queue := Enqueue(facts, entry, name, queue, reachable);
      }
    }
    forall name | Reachable(facts, entry, name) ensures name in reachable {
      var path :| ReachableBy(facts, entry, name, path);
      ClosedSetHoldsPath(facts, reachable, path);
    }
  }

  /** Appends the known callees of a function that are not reached yet. */
  method Enqueue(facts: Facts, entry: string, name: string, waiting: seq<string>, reachable: set<string>)
    returns (queue: seq<string>)
    requires name in facts && Reachable(facts, entry, name)
    ensures waiting <= queue
    ensures forall callee | Calls(facts, name, callee) :: callee in reachable || callee in queue
    ensures forall callee | callee in queue :: callee in waiting || Reachable(facts, entry, callee)
  {
    queue := waiting;
    var calls := facts[name].calls;
    for i := 0 to |calls|
      invariant waiting <= queue
      invariant forall j | 0 <= j < i ::
                  calls[j].Some? && calls[j].value in facts ==> calls[j].value in reachable || calls[j].value in queue
      invariant forall callee | callee in queue :: callee in waiting || Reachable(facts, entry, callee)
    {
      if calls[i].Some? && calls[i].value in facts && calls[i].value !in reachable {
        assert Calls(facts, name, calls[i].value);
        CalleeIsReachable(facts, entry, name, calls[i].value);
        queue := queue + [calls[i].value];
      }
    }
  }

  // ---------- what the guard concludes ----------

  predicate Allocates(f: FunctionFacts) {
    exists name :: name in ALLOCATORS && Some(name) in f.calls
  }

  /** The launch flag and the findings about the output. */
  method CheckLaunchAndOutputs(functions: Facts, entryName: string, entry: FunctionFacts)
    returns (launch: bool, findings: seq<Finding>)
    ensures var facts := functions[entryName := entry];
            && (launch <==> exists name :: Reachable(facts, entryName, name) && name in facts && facts[name].launches)
            && (MissingOutputAllocator in findings <==>
                  launch && forall name | name in facts :: Reachable(facts, entryName, name) ==> !Allocates(facts[name]))
            && (InvalidHostReturn in findings <==> launch && entry.returned == {})
  {
    var facts := functions[entryName := entry];
    var reachable := ReachableFrom(facts, entryName);
    launch := exists name :: name in reachable && facts[name].launches;
    findings := [];
    if !launch {
      return;
    }
    var allocates := exists name :: name in reachable && Allocates(facts[name]);
    if !allocates {
      findings := findings + [MissingOutputAllocator];
    }
    if facts[entryName].returned == {} {
      findings := findings + [InvalidHostReturn];
    }
  }

  /** Cycles do no harm and unreached functions do not count: changing what an
      unreachable function does changes nothing the guard concludes. */
  lemma {:induction false} UnreachableFunctionsDoNotCount(facts: Facts, entry: string, other: string, f: FunctionFacts,
                                                          name: string)
    requires other in facts && !Reachable(facts, entry, other)
    ensures Reachable(facts[other := f], entry, name) <==> Reachable(facts, entry, name)
  {
    var changed := facts[other := f];
    if Reachable(facts, entry, name) {
      var path :| ReachableBy(facts, entry, name, path);
      SamePath(facts, changed, entry, other, path);
      assert ReachableBy(changed, entry, name, path);
    }
    if Reachable(changed, entry, name) {
      var path :| ReachableBy(changed, entry, name, path);
      BackPath(facts, changed, entry, other, path);
      assert ReachableBy(facts, entry, name, path);
    }
  }

  lemma {:induction false} SamePath(facts: Facts, changed: Facts, entry: string, other: string, path: seq<string>)
    requires other in facts && other in changed && changed == facts[other := changed[other]]
    requires !Reachable(facts, entry, other)
    requires IsCallPath(facts, path) && path[0] == entry
    ensures IsCallPath(changed, path)
    decreases |path|
  {
    assert ReachableBy(facts, entry, path[|path| - 1], path);
    if |path| > 1 {
      var front := path[..|path| - 1];
      assert IsCallPath(facts, front);
      assert ReachableBy(facts, entry, path[|path| - 2], front);
      SamePath(facts, changed, entry, other, front);
      assert Calls(facts, path[|path| - 2], path[|path| - 1]);
      forall i | 0 < i < |path| ensures Calls(changed, path[i - 1], path[i]) {
        if i < |front| {
          assert Calls(changed, front[i - 1], front[i]);
        }
      }
    }
  }

  lemma {:induction false} BackPath(facts: Facts, changed: Facts, entry: string, other: string, path: seq<string>)
    requires other in facts && other in changed && changed == facts[other := changed[other]]
    requires !Reachable(facts, entry, other)
    requires IsCallPath(changed, path) && path[0] == entry
    ensures IsCallPath(facts, path)
    decreases |path|
  {
    if |path| > 1 {
      var front := path[..|path| - 1];
      assert IsCallPath(changed, front);
      BackPath(facts, changed, entry, other, front);
      assert ReachableBy(facts, entry, path[|path| - 2], front);
      assert Calls(changed, path[|path| - 2], path[|path| - 1]);
      forall i | 0 < i < |path| ensures Calls(facts, path[i - 1], path[i]) {
        if i < |front| {
          assert Calls(facts, front[i - 1], front[i]);
        }
      }
    }
  }
}
