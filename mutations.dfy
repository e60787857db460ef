/**
 * The nested mutations a collection delta starts (`iterateonCollectionFields`
 * and `executeItemFunction`): for each collected field in turn, its `added`
 * elements are saved and its `updated` elements updated, each on behalf of
 * the parent, and the first failure ends the walk.
 */
module Mutations {
  import opened Wrappers
  import opened Values
  import opened Schema
  import opened Errors
  import opened Materialize

  // Collection deltas: `iterateonCollectionFields` and `executeItemFunction`.

  /** The nested mutation an element of a delta list is handed to; `deleted` has none (src/index.js:636-637). */
  datatype ItemKind = SaveItem | UpdateItem

  /**
   * `onSaveObject` or `onUpdateSubject` on one element of a delta list, of
   * the list's element type, with a parent link that writes `objectId`
   * under the relation's connection field.
   */
  datatype ItemCall = ItemCall(kind: ItemKind, entity: string, item: Value, link: (string, Value))

  /** What a delta asks for, step by step: a nested mutation, or a TypeError that ends the loop. */
  datatype Step = Invoke(call: ItemCall) | Crash(error: Thrown)

  /** Whether a nested mutation throws, and what; what it writes to its own collection is not modelled. */
  type Outcomes = ItemCall -> Option<Thrown>

  /** The nested mutations started, and how the whole ended. */
  datatype Effects = Effects(invoked: seq<ItemCall>, result: Result<(), Thrown>)

  /** `for...of` over a delta list that is neither an array nor a string. */
  const LIST_NOT_ITERABLE: string := "collectionFieldsList is not iterable"

  /** Field `key` of the type is a list of referenced objects: what a collection delta key always names. */
  predicate CollectionField(fs: seq<Field>, key: string) {
    var f := FieldNamed(fs, key);
    f.Some? && f.value.ty.List? && f.value.ty.elem.Object? && f.value.relation.Some?
  }

  /** Every delta key of `materializeModel`'s output names a collection field. */
  predicate DeltaKeys(fs: seq<Field>, cf: seq<(string, Value)>) {
    forall i :: 0 <= i < |cf| ==> CollectionField(fs, cf[i].0)
  }

  /** The elements `for...of` yields from a delta list that is truthy and can be walked; none otherwise. */
  function Items(list: Value): (items: seq<Value>)
    ensures Truthy(list) && Iterable(list) ==>
              |items| == Count(list) && forall k :: 0 <= k < |items| ==> items[k] == Element(list, k)
    ensures !(Truthy(list) && Iterable(list)) ==> items == []
  {
    if Truthy(list) && Iterable(list) then seq(Count(list), k requires 0 <= k < Count(list) => Element(list, k)) else []
  }

  /** One nested mutation of `kind` per element, in order, all linked through `link`. */
  function Invokes(kind: ItemKind, entity: string, items: seq<Value>, link: (string, Value)): (s: seq<Step>)
    ensures |s| == |items|
    ensures forall k :: 0 <= k < |s| ==> s[k] == Invoke(ItemCall(kind, entity, items[k], link))
  {
    if |items| == 0 then [] else [Invoke(ItemCall(kind, entity, items[0], link))] + Invokes(kind, entity, items[1..], link)
  }

  /**
   * One delta list (`added`, `updated` or `deleted`): a TypeError when it
   * is truthy but cannot be walked, else one step per element it yields;
   * `deleted` elements are walked with a function that does nothing.
   */
  function BatchSteps(kind: Option<ItemKind>, entity: string, list: Value, link: (string, Value)): seq<Step> {
    if Truthy(list) && !Iterable(list) then [Crash(Unknown(LIST_NOT_ITERABLE))]
    else if kind.None? then []
    else Invokes(kind.value, entity, Items(list), link)
  }

  /** A delta list can be walked: it is falsy, an array or a string. */
  predicate Walkable(list: Value) {
    !Truthy(list) || Iterable(list)
  }

  /**
   * The steps of one collection field's delta (src/index.js:446-461,
   * 611-643): its `added` elements saved, then its `updated` elements
   * updated, then its `deleted` list walked to no effect, each nested
   * mutation linked to the parent `objectId`.
   */
  function EntrySteps(fs: seq<Field>, key: string, delta: Value, objectId: Value): seq<Step>
    requires CollectionField(fs, key)
  {
    var f := FieldNamed(fs, key).value;
    var entity := f.ty.elem.typeName;
    var link := (f.relation.value.connectionField, objectId);
    BatchSteps(Some(SaveItem), entity, Get(delta, "added"), link)
    + BatchSteps(Some(UpdateItem), entity, Get(delta, "updated"), link)
    + BatchSteps(None, entity, Get(delta, "deleted"), link)
  }

  /** The steps of the collection fields' deltas from the `i`-th on, field after field in the order they were collected. */
  function PlannedFrom(fs: seq<Field>, cf: seq<(string, Value)>, i: nat, objectId: Value): seq<Step>
    requires DeltaKeys(fs, cf) && i <= |cf|
    decreases |cf| - i
  {
    if i == |cf| then []
    else EntrySteps(fs, cf[i].0, cf[i].1, objectId) + PlannedFrom(fs, cf, i + 1, objectId)
  }

  /**
   * Taking the steps one after the other, each nested mutation awaited:
   * the first one that throws, or the first TypeError, ends the loop and
   * its error is the result; the steps after it are never taken.
   */
  function Execute(steps: seq<Step>, outcome: Outcomes): Effects {
    if |steps| == 0 then Effects([], Ok(()))
    else match steps[0]
      case Crash(err) => Effects([], Err(err))
      case Invoke(c) =>
        match outcome(c)
        case Some(err) => Effects([c], Err(err))
        case None =>
          var rest := Execute(steps[1..], outcome);
          Effects([c] + rest.invoked, rest.result)
  }

  /** The nested mutations `invoked` already started, followed by the run `e`. */
  function Then(invoked: seq<ItemCall>, e: Effects): Effects {
    Effects(invoked + e.invoked, e.result)
  }

  lemma ThenThen(a: seq<ItemCall>, b: seq<ItemCall>, e: Effects)
    ensures Then(a, Then(b, e)) == Then(a + b, e)
  {
    assert a + (b + e.invoked) == (a + b) + e.invoked;
  }

  /** Each nested mutation started is the next step of the plan, and none after a throw or a crash. */
  predicate StopsAtFirstFailure(steps: seq<Step>, outcome: Outcomes, e: Effects) {
    var n := |e.invoked|;
    && n <= |steps|
    && (forall j :: 0 <= j < n ==> steps[j] == Invoke(e.invoked[j]))
    && (e.result.Ok? <==> n == |steps| && forall j :: 0 <= j < n ==> outcome(e.invoked[j]).None?)
    && (e.result.Err? ==>
          || (n > 0 && outcome(e.invoked[n - 1]) == Some(e.result.error)
              && forall j :: 0 <= j < n - 1 ==> outcome(e.invoked[j]).None?)
          || (n < |steps| && steps[n] == Crash(e.result.error)
              && forall j :: 0 <= j < n ==> outcome(e.invoked[j]).None?))
  }

  /** Execution is fail-fast. */
  lemma {:induction false} ExecuteFailFast(steps: seq<Step>, outcome: Outcomes)
    ensures StopsAtFirstFailure(steps, outcome, Execute(steps, outcome))
  {
    if |steps| > 0 && steps[0].Invoke? && outcome(steps[0].call).None? {
      var c := steps[0].call;
      var rest := Execute(steps[1..], outcome);
      ExecuteFailFast(steps[1..], outcome);
      var e := Execute(steps, outcome);
      assert e.invoked == [c] + rest.invoked;
      forall j | 0 <= j < |e.invoked| ensures steps[j] == Invoke(e.invoked[j]) {
        if j > 0 { assert e.invoked[j] == rest.invoked[j - 1] && steps[j] == steps[1..][j - 1]; }
      }
      if e.result.Ok? {
        forall j | 0 <= j < |e.invoked| ensures outcome(e.invoked[j]).None? {
          if j > 0 { assert e.invoked[j] == rest.invoked[j - 1]; }
        }
      }
      if rest.result.Ok? && forall j :: 0 <= j < |rest.invoked| ==> outcome(rest.invoked[j]).None? {
        assert e.result.Ok?;
      }
      if e.result.Err? {
        var n := |e.invoked|;
        forall j | 0 <= j < n - 1 ensures outcome(e.invoked[j]).None? {
          if j > 0 { assert e.invoked[j] == rest.invoked[j - 1]; }
        }
        if n < |steps| {
          assert steps[n] == steps[1..][n - 1];
        }
      }
    }
  }

  /** A first step that starts a nested mutation which returns is followed by the rest of the run. */
  lemma ExecuteHead(steps: seq<Step>, outcome: Outcomes)
    requires |steps| > 0 && steps[0].Invoke? && outcome(steps[0].call).None?
    ensures Execute(steps, outcome) == Then([steps[0].call], Execute(steps[1..], outcome))
  {
  }

  /** Running `a` then `b` is running `a`, and `b` only if `a` ended well. */
  lemma {:induction false} ExecuteAppend(a: seq<Step>, b: seq<Step>, outcome: Outcomes)
    ensures var ea := Execute(a, outcome);
            var eb := Execute(b, outcome);
            Execute(a + b, outcome) == if ea.result.Err? then ea else Effects(ea.invoked + eb.invoked, eb.result)
  {
    var eb := Execute(b, outcome);
    if |a| == 0 {
      assert a + b == b;
      assert [] + eb.invoked == eb.invoked;
    } else if a[0].Invoke? && outcome(a[0].call).None? {
      var c := a[0].call;
      assert (a + b)[0] == a[0];
      assert (a + b)[1..] == a[1..] + b;
      ExecuteHead(a, outcome);
      ExecuteHead(a + b, outcome);
      ExecuteAppend(a[1..], b, outcome);
      var tail := Execute(a[1..], outcome);
      if tail.result.Ok? {
        assert [c] + (tail.invoked + eb.invoked) == ([c] + tail.invoked) + eb.invoked;
      }
    } else {
      assert (a + b)[0] == a[0];
    }
  }

  /**
   * Within one field whose delta lists can all be walked, every `added`
   * element is saved, in order, before any `updated` element is updated,
   * each nested mutation is linked to the parent through the relation's
   * connection field, and `deleted` starts nothing.
   */
  lemma SavesThenUpdates(fs: seq<Field>, key: string, delta: Value, objectId: Value)
    requires CollectionField(fs, key)
    requires Walkable(Get(delta, "added")) && Walkable(Get(delta, "updated")) && Walkable(Get(delta, "deleted"))
    ensures var f := FieldNamed(fs, key).value;
            var link := (f.relation.value.connectionField, objectId);
            EntrySteps(fs, key, delta, objectId)
            == Invokes(SaveItem, f.ty.elem.typeName, Items(Get(delta, "added")), link)
               + Invokes(UpdateItem, f.ty.elem.typeName, Items(Get(delta, "updated")), link)
  {
    var f := FieldNamed(fs, key).value;
    var link := (f.relation.value.connectionField, objectId);
    assert BatchSteps(None, f.ty.elem.typeName, Get(delta, "deleted"), link) == [];
  }

  /** A delta list that cannot be walked ends the field's steps with a TypeError. */
  lemma UnwalkableCrashes(fs: seq<Field>, key: string, delta: Value, objectId: Value)
    requires CollectionField(fs, key)
    requires !Walkable(Get(delta, "added"))
    ensures EntrySteps(fs, key, delta, objectId)[0] == Crash(Unknown(LIST_NOT_ITERABLE))
  {
  }

  /** The `deleted` list changes nothing in the plan, as long as it can be walked. */
  lemma DeletedIgnored(fs: seq<Field>, key: string, delta: Value, deleted: Value, objectId: Value)
    requires CollectionField(fs, key) && delta.Obj?
    requires Walkable(Get(delta, "deleted")) && Walkable(deleted)
    ensures EntrySteps(fs, key, delta, objectId) == EntrySteps(fs, key, Obj(delta.fields["deleted" := deleted]), objectId)
  {
    var d' := Obj(delta.fields["deleted" := deleted]);
    assert Get(d', "added") == Get(delta, "added");
    assert Get(d', "updated") == Get(delta, "updated");
  }

  /** One delta list walked with `for...of`, each nested mutation awaited (src/index.js:640-642). */
  method RunBatch(kind: Option<ItemKind>, entity: string, list: Value, link: (string, Value), outcome: Outcomes)
    returns (e: Effects)
    ensures e == Execute(BatchSteps(kind, entity, list, link), outcome)
  {
    if !Truthy(list) {
      return Effects([], Ok(()));
    }
    if !Iterable(list) {
      return Effects([], Err(Unknown(LIST_NOT_ITERABLE)));
    }
    if kind.None? {
      return Effects([], Ok(()));
    }
    ghost var steps := BatchSteps(kind, entity, list, link);
    ghost var whole := Execute(steps, outcome);
    var invoked: seq<ItemCall> := [];
    var k := 0;
    while k < Count(list)
      invariant 0 <= k <= Count(list) == |steps|
      invariant whole == Then(invoked, Execute(steps[k..], outcome))
    {
      var c := ItemCall(kind.value, entity, Element(list, k), link);
      assert steps[k..][0] == Invoke(c) && steps[k..][1..] == steps[k + 1..];
      var thrown := outcome(c);
      if thrown.Some? {
        return Effects(invoked + [c], Err(thrown.value));
      }
      invoked := invoked + [c];
      k := k + 1;
    }
    assert steps[k..] == [];
    return Effects(invoked, Ok(()));
  }

  /** `executeItemFunction` for each of a field's three delta lists (src/index.js:447-461). */
  method RunEntry(fs: seq<Field>, key: string, delta: Value, objectId: Value, outcome: Outcomes) returns (e: Effects)
    requires CollectionField(fs, key)
    ensures e == Execute(EntrySteps(fs, key, delta, objectId), outcome)
  {
    var f := FieldNamed(fs, key).value;
    var entity := f.ty.elem.typeName;
    var link := (f.relation.value.connectionField, objectId);
    ghost var sa := BatchSteps(Some(SaveItem), entity, Get(delta, "added"), link);
    ghost var su := BatchSteps(Some(UpdateItem), entity, Get(delta, "updated"), link);
    ghost var sd := BatchSteps(None, entity, Get(delta, "deleted"), link);
    ExecuteAppend(sa + su, sd, outcome);
    ExecuteAppend(sa, su, outcome);
    var saved := RunBatch(Some(SaveItem), entity, Get(delta, "added"), link, outcome);
    if saved.result.Err? {
      return saved;
    }
    var updated := RunBatch(Some(UpdateItem), entity, Get(delta, "updated"), link, outcome);
    if updated.result.Err? {
      return Effects(saved.invoked + updated.invoked, updated.result);
    }
    var deleted := RunBatch(None, entity, Get(delta, "deleted"), link, outcome);
    return Effects(saved.invoked + updated.invoked + deleted.invoked, deleted.result);
  }

  /** The run of each collected delta on its own, in the order they were collected. */
  function EntryRuns(fs: seq<Field>, cf: seq<(string, Value)>, objectId: Value, outcome: Outcomes): (runs: seq<Effects>)
    requires DeltaKeys(fs, cf)
    ensures |runs| == |cf|
    ensures forall i :: 0 <= i < |cf| ==> runs[i] == Execute(EntrySteps(fs, cf[i].0, cf[i].1, objectId), outcome)
  {
    seq(|cf|, i requires 0 <= i < |cf| => Execute(EntrySteps(fs, cf[i].0, cf[i].1, objectId), outcome))
  }

  /** Runs taken one after the other: the first that fails ends the walk with its error. */
  function Chain(runs: seq<Effects>): Effects {
    if |runs| == 0 then Effects([], Ok(()))
    else if runs[0].result.Err? then runs[0]
    else Then(runs[0].invoked, Chain(runs[1..]))
  }

  /** Walking the deltas one by one is executing their steps laid end to end. */
  lemma {:induction false} ChainPlanned(fs: seq<Field>, cf: seq<(string, Value)>, i: nat, objectId: Value, outcome: Outcomes)
    requires DeltaKeys(fs, cf) && i <= |cf|
    ensures Chain(EntryRuns(fs, cf, objectId, outcome)[i..]) == Execute(PlannedFrom(fs, cf, i, objectId), outcome)
    decreases |cf| - i
  {
    var runs := EntryRuns(fs, cf, objectId, outcome);
    if i < |cf| {
      assert runs[i..][0] == runs[i] && runs[i..][1..] == runs[i + 1..];
      ExecuteAppend(EntrySteps(fs, cf[i].0, cf[i].1, objectId), PlannedFrom(fs, cf, i + 1, objectId), outcome);
      ChainPlanned(fs, cf, i + 1, objectId, outcome);
    }
  }

  /** The whole walk is running the whole plan. */
  lemma WalkPlanned(fs: seq<Field>, cf: seq<(string, Value)>, objectId: Value, outcome: Outcomes)
    requires DeltaKeys(fs, cf)
    ensures Chain(EntryRuns(fs, cf, objectId, outcome)) == Execute(PlannedFrom(fs, cf, 0, objectId), outcome)
  {
    var runs := EntryRuns(fs, cf, objectId, outcome);
    assert runs[0..] == runs;
    ChainPlanned(fs, cf, 0, objectId, outcome);
  }

  /**
   * `iterateonCollectionFields` (src/index.js:444-463): every collected
   * delta in turn, on behalf of the parent `objectId`.
   */
  method IterateCollectionFields(fs: seq<Field>, cf: seq<(string, Value)>, objectId: Value, outcome: Outcomes)
    returns (e: Effects)
    requires DeltaKeys(fs, cf)
    ensures e == Chain(EntryRuns(fs, cf, objectId, outcome))
  {
    ghost var runs := EntryRuns(fs, cf, objectId, outcome);
    ghost var whole := Chain(runs);
    var invoked: seq<ItemCall> := [];
    var i := 0;
    assert runs[0..] == runs;
    while i < |cf|
      invariant 0 <= i <= |cf|
      invariant whole == Then(invoked, Chain(runs[i..]))
    {
      assert runs[i..][0] == runs[i] && runs[i..][1..] == runs[i + 1..];
      var entry := RunEntry(fs, cf[i].0, cf[i].1, objectId, outcome);
      if entry.result.Err? {
        return Then(invoked, entry);
      }
      ThenThen(invoked, entry.invoked, Chain(runs[i + 1..]));
      invoked := invoked + entry.invoked;
      i := i + 1;
    }
    assert invoked + [] == invoked;
    return Effects(invoked, Ok(()));
  }

  /** A delta is only ever collected from a list of referenced objects (src/index.js:392-393). */
  lemma ContributedFromReferenceList(reg: Registry, verdict: Verdicts, args: Value, op: Operation, f: Field)
    requires WellFormed(reg) && Referenced(f.ty) <= reg.Keys
    requires Contribute(reg, verdict, args, op, f).result.Ok?
    requires Contribute(reg, verdict, args, op, f).result.value.Collect?
    ensures f.ty.List? && f.ty.elem.Object? && f.relation.Some?
  {
  }

  /** The same, for the whole iteration of the field loop. */
  lemma CollectedFromReferenceList(reg: Registry, verdict: Verdicts, args: Value, entity: string,
                                   op: Operation, f: Field)
    requires WellFormed(reg) && Referenced(f.ty) <= reg.Keys
    requires FieldStep(reg, verdict, args, entity, op, f).result.Ok?
    requires FieldStep(reg, verdict, args, entity, op, f).result.value.Collect?
    ensures f.ty.List? && f.ty.elem.Object? && f.relation.Some?
  {
    ContributedFromReferenceList(reg, verdict, args, op, f);
  }

  /** The field loop from field `i` on keeps every collected key a collection field of the type. */
  lemma {:induction false} FieldsCollectKeys(reg: Registry, verdict: Verdicts, args: Value, tn: string,
                                             op: Operation, i: nat, acc: Materialized)
    requires WellFormed(reg) && tn in reg && i <= |reg[tn].gqltype.fields|
    requires DeltaKeys(reg[tn].gqltype.fields, acc.collectionFields)
    requires FieldsFrom(reg, verdict, args, tn, op, i, acc).result.Ok?
    ensures DeltaKeys(reg[tn].gqltype.fields, FieldsFrom(reg, verdict, args, tn, op, i, acc).result.value.collectionFields)
    decreases |reg[tn].gqltype.fields| - i
  {
    var fs := reg[tn].gqltype.fields;
    if i < |fs| {
      FieldsStepOk(reg, verdict, args, tn, op, i, acc);
      var c := FieldStep(reg, verdict, args, reg[tn].gqltype.name, op, fs[i]).result.value;
      if c.Collect? {
        CollectedFromReferenceList(reg, verdict, args, reg[tn].gqltype.name, op, fs[i]);
        FieldNamedFinds(fs, i);
        assert CollectionField(fs, c.name);
      }
      FieldsCollectKeys(reg, verdict, args, tn, op, i + 1, Apply(acc, c));
    }
  }

  /** What `materializeModel` collects is always something `iterateonCollectionFields` can walk. */
  lemma CollectedKeys(reg: Registry, verdict: Verdicts, args: Value, tn: string,
                      link: Option<(string, Value)>, op: Operation)
    requires WellFormed(reg) && tn in reg && Succeeds(reg, verdict, args, tn, link, op)
    ensures DeltaKeys(reg[tn].gqltype.fields, Built(reg, verdict, args, tn, link, op).collectionFields)
  {
    EntityChecksSeeLinkedDocument(reg, verdict, args, tn, link, op);
    FieldsCollectKeys(reg, verdict, args, tn, op, 0, Materialized(map[], []));
  }
}
