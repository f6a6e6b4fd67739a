/** Which modules a schema export has to include: a closure computed by repeated passes over the context. */
module SchemaModules {

  /** A libyang module, known by its address, and the modules that augment or deviate it. */
  datatype Module = Module(id: nat, implemented: bool, compiled: bool, augmentedBy: seq<nat>, deviatedBy: seq<nat>)

  // ---------------------------------------------------------- specification

  predicate HasOwner(relation: seq<nat>, modules: set<nat>, deviations: set<nat>) {
    exists id | id in relation :: id in modules || id in deviations
  }

  /** The module belongs to any set that contains `modules`. */
  predicate Relevant(m: Module, modules: set<nat>, deviations: set<nat>) {
    && m.implemented && m.compiled && m.id !in deviations
    && (HasOwner(m.augmentedBy, modules, deviations) || HasOwner(m.deviatedBy, modules, deviations))
  }

  ghost predicate Closed(modules: set<nat>, deviations: set<nat>, context: set<Module>) {
    forall m :: m in context && Relevant(m, modules, deviations) ==> m.id in modules
  }

  /** The least closed set that contains the starting modules. */
  ghost predicate Least(result: set<nat>, start: set<nat>, deviations: set<nat>, context: set<Module>) {
    && start <= result && Closed(result, deviations, context)
    && forall other :: start <= other && Closed(other, deviations, context) ==> result <= other
  }

  lemma LeastIsUnique(a: set<nat>, b: set<nat>, start: set<nat>, deviations: set<nat>, context: set<Module>)
    requires Least(a, start, deviations, context) && Least(b, start, deviations, context)
    ensures a == b
  {
    assert start <= b && Closed(b, deviations, context);
    assert start <= a && Closed(a, deviations, context);
  }

  lemma RelevantMonotone(m: Module, small: set<nat>, large: set<nat>, deviations: set<nat>)
    requires small <= large && Relevant(m, small, deviations)
    ensures Relevant(m, large, deviations)
  {
  }

  // ------------------------------------------------------------------ source

  function ToSet<T>(s: seq<T>): set<T> {
    set x | x in s
  }

  ghost predicate Distinct(ids: seq<nat>) {
    forall i, j :: 0 <= i < j < |ids| ==> ids[i] != ids[j]
  }

  /** A growing list of modules without duplicates. */
  class ModuleList {
    var items: seq<nat>

    constructor (start: seq<nat>)
      ensures items == start
    {
      items := start;
    }

    method Contains(id: nat) returns (found: bool)
      ensures found == (id in items)
    {
      var index := 0;
      while index < |items|
        invariant 0 <= index <= |items|
        invariant id !in items[..index]
      {
        if items[index] == id {
          return true;
        }
        index := index + 1;
      }
      return false;
    }

    method Add(id: nat)
      requires Distinct(items)
      modifies this
      ensures Distinct(items)
      ensures items == if id in old(items) then old(items) else old(items) + [id]
    {
      var found := Contains(id);
      if !found {
        items := items + [id];
      }
    }
  }

  method RelationHasOwner(relation: seq<nat>, modules: ModuleList, deviations: ModuleList) returns (found: bool)
    ensures found == HasOwner(relation, ToSet(modules.items), ToSet(deviations.items))
  {
    var index := 0;
    while index < |relation|
      invariant 0 <= index <= |relation|
      invariant forall i :: 0 <= i < index ==> relation[i] !in modules.items && relation[i] !in deviations.items
    {
      var inModules := modules.Contains(relation[index]);
      var inDeviations := deviations.Contains(relation[index]);
      if inModules || inDeviations {
        assert relation[index] in relation;
        return true;
      }
      index := index + 1;
    }
    return false;
  }

  /** The test the inner loop makes before adding a candidate. */
  method IsMissing(candidate: Module, modules: ModuleList, deviations: ModuleList) returns (missing: bool)
    ensures missing == (candidate.id !in modules.items
                        && Relevant(candidate, ToSet(modules.items), ToSet(deviations.items)))
  {
    var known := modules.Contains(candidate.id);
    var deviating := deviations.Contains(candidate.id);
    if !candidate.implemented || !candidate.compiled || known || deviating {
      return false;
    }
    missing := RelationHasOwner(candidate.augmentedBy, modules, deviations);
    if !missing {
      missing := RelationHasOwner(candidate.deviatedBy, modules, deviations);
    }
  }

  /** What a pass keeps: the list stays within every closed set that contains the start. */
  ghost predicate Within(items: seq<nat>, start: seq<nat>, deviations: seq<nat>, context: seq<Module>) {
    && Distinct(items) && ToSet(start) <= ToSet(items)
    && forall other :: ToSet(start) <= other && Closed(other, ToSet(deviations), ToSet(context)) ==>
        ToSet(items) <= other
  }

  lemma WithinAfterAdding(items: seq<nat>, start: seq<nat>, deviations: seq<nat>, context: seq<Module>, m: Module)
    requires Within(items, start, deviations, context)
    requires m in context && m.id !in items && Relevant(m, ToSet(items), ToSet(deviations))
    ensures Within(items + [m.id], start, deviations, context)
  {
    assert ToSet(items + [m.id]) == ToSet(items) + {m.id};
    forall other | ToSet(start) <= other && Closed(other, ToSet(deviations), ToSet(context))
      ensures ToSet(items + [m.id]) <= other
    {
      RelevantMonotone(m, ToSet(items), other, ToSet(deviations));
      assert m in ToSet(context);
    }
  }

  ghost function Outstanding(items: seq<nat>, context: seq<Module>): nat {
    |(set m | m in context :: m.id) - ToSet(items)|
  }

  /** One pass over the context. If it adds nothing, the list is closed. */
  method Pass(modules: ModuleList, deviations: ModuleList, context: seq<Module>,
              ghost start: seq<nat>) returns (added: bool)
    requires modules != deviations && Within(modules.items, start, deviations.items, context)
    modifies modules
    ensures Within(modules.items, start, deviations.items, context) && old(modules.items) <= modules.items
    ensures added ==> Outstanding(modules.items, context) < Outstanding(old(modules.items), context)
    ensures !added ==>
              modules.items == old(modules.items)
              && Closed(ToSet(modules.items), ToSet(deviations.items), ToSet(context))
  {
    added := false;
    ghost var before := modules.items;
    var i := 0;
    while i < |context|
      invariant 0 <= i <= |context|
      invariant PassState(modules.items, start, deviations.items, context, before, i, added)
    {
      var missing := IsMissing(context[i], modules, deviations);
      PassMoves(modules.items, start, deviations.items, context, before, i, added);
      if missing {
        modules.Add(context[i].id);
        added := true;
      }
      i := i + 1;
    }
    NothingMissing(context, before, deviations.items);
    assert context[..i] == context;
  }

  /** Every relevant module of the list is there. */
  ghost predicate HasRelevant(context: seq<Module>, items: seq<nat>, deviations: seq<nat>) {
    forall m :: m in context && Relevant(m, ToSet(items), ToSet(deviations)) ==> m.id in items
  }

  lemma NothingMissing(context: seq<Module>, items: seq<nat>, deviations: seq<nat>)
    ensures HasRelevant(context, items, deviations) ==> Closed(ToSet(items), ToSet(deviations), ToSet(context))
  {
  }

  /** After the first `i` modules: the list has grown, or nothing that was met is missing. */
  ghost predicate PassState(items: seq<nat>, start: seq<nat>, deviations: seq<nat>, context: seq<Module>,
                            before: seq<nat>, i: nat, added: bool)
    requires i <= |context|
  {
    && Within(items, start, deviations, context) && before <= items
    && (if added then Outstanding(items, context) < Outstanding(before, context)
        else items == before && HasRelevant(context[..i], before, deviations))
  }

  lemma PassMoves(items: seq<nat>, start: seq<nat>, deviations: seq<nat>, context: seq<Module>, before: seq<nat>,
                  i: nat, added: bool)
    requires i < |context| && PassState(items, start, deviations, context, before, i, added)
    ensures var m := context[i];
            if m.id !in items && Relevant(m, ToSet(items), ToSet(deviations))
            then PassState(items + [m.id], start, deviations, context, before, i + 1, true)
            else PassState(items, start, deviations, context, before, i + 1, added)
  {
    var m := context[i];
    assert context[..i + 1] == context[..i] + [m];
    if m.id !in items && Relevant(m, ToSet(items), ToSet(deviations)) {
      WithinAfterAdding(items, start, deviations, context, m);
      Shrinks(context, items, m);
    }
  }

  /** Repeats passes until one adds nothing; the result is the least closed set, kept in a list without
      duplicates. */
  method ExpandRelevantModules(modules: ModuleList, deviations: ModuleList, context: seq<Module>)
    requires Distinct(modules.items) && modules != deviations
    modifies modules
    ensures Distinct(modules.items) && old(modules.items) <= modules.items
    ensures Least(ToSet(modules.items), ToSet(old(modules.items)), ToSet(deviations.items), ToSet(context))
  {
    var added := true;
    ghost var start := modules.items;
    while added
      invariant Within(modules.items, start, deviations.items, context) && start <= modules.items
      invariant !added ==> Closed(ToSet(modules.items), ToSet(deviations.items), ToSet(context))
      decreases Outstanding(modules.items, context), added
    {
      added := Pass(modules, deviations, context, start);
    }
  }

  lemma Shrinks(context: seq<Module>, items: seq<nat>, m: Module)
    requires m in context && m.id !in items
    ensures Outstanding(items + [m.id], context) < Outstanding(items, context)
  {
    var ids := set m | m in context :: m.id;
    assert ids - ToSet(items + [m.id]) == (ids - ToSet(items)) - {m.id};
    assert m.id in ids - ToSet(items);
  }

  /** The result does not depend on the order in which the context lists its modules. */
  lemma OrderIndependent(a: set<nat>, b: set<nat>, start: set<nat>, deviations: set<nat>, one: seq<Module>,
                         other: seq<Module>)
    requires multiset(one) == multiset(other)
    requires Least(a, start, deviations, ToSet(one)) && Least(b, start, deviations, ToSet(other))
    ensures a == b
  {
    forall m ensures m in one <==> m in other {
      assert m in one <==> m in multiset(one);
    }
    assert ToSet(one) == ToSet(other);
    LeastIsUnique(a, b, start, deviations, ToSet(one));
  }
}
