/**
 * The mutation resolvers' decision logic around one entity's collection:
 * `onUpdateSubject` (src/index.js:476-522), `onStateChanged`
 * (src/index.js:524-541) and `onSaveObject` (src/index.js:543-571). The
 * collection is a `Collection`, a map from id to stored document; nested
 * mutations are described by their `Outcomes` (whether each one throws,
 * not what it writes), and controller hooks and the transaction around a
 * mutation are not part of this model. A new document's id stands for the
 * one the database assigns, so it is not yet in the collection.
 */
module Resolvers {
  import opened Wrappers
  import opened Values
  import opened Schema
  import opened Errors
  import opened Materialize
  import opened Mutations
  import opened Updates

  /** The key a document's id is stored under. */
  const ID_KEY: string := "_id"

  /** What a mutation did: the nested mutations it started, what it returned or threw, and the collection after it. */
  datatype Outcome = Outcome(invoked: seq<ItemCall>, result: Result<Option<Doc>, Thrown>, docs: map<Value, Doc>)

  /**
   * `findByIdAndUpdate(id, update)` on the stored document: the keys of the
   * update are set, then the names listed under `$unset` are removed.
   */
  function Applied(stored: Doc, update: Doc): (r: Doc)
    ensures forall k :: k in Unsetting(update) ==> k !in r
    ensures forall k :: k in update && k != UNSET && k !in Unsetting(update) ==> k in r && r[k] == update[k]
    ensures forall k :: k in stored && k !in update && k !in Unsetting(update) ==> k in r && r[k] == stored[k]
    ensures forall k :: k in r ==> k in stored || (k in update && k != UNSET)
  {
    var sets := update - {UNSET};
    map k | k in (stored.Keys + sets.Keys) - Unsetting(update) :: if k in sets then sets[k] else stored[k]
  }

  /**
   * `onUpdateSubject`: materialise the arguments for UPDATE, run the
   * collection deltas on behalf of `args.id`, merge with the stored
   * document and write it back; `null` when no document has that id.
   */
  function UpdateOutcome(reg: Registry, verdict: Verdicts, tn: string, args: Value, link: Option<(string, Value)>,
                         outcome: Outcomes, docs: map<Value, Doc>): (r: Outcome)
    requires WellFormed(reg) && tn in reg
    ensures r.result.Ok? && r.result.value.Some? ==>
              Get(args, "id") in docs && r.docs == docs[Get(args, "id") := r.result.value.value]
    ensures r.result.Ok? && r.result.value.None? ==> Get(args, "id") !in docs && r.docs == docs
    ensures r.result.Err? ==> r.docs == docs
    ensures !Succeeds(reg, verdict, args, tn, link, UPDATE) ==> r.invoked == [] && r.result.Err? && r.docs == docs
  {
    var run := Materialize.Materialize(reg, verdict, args, tn, link, UPDATE);
    match run.result
    case Err(e) => Outcome([], Err(e), docs)
    case Ok(None) => Outcome([], Err(Unknown(NullRead("collectionFields"))), docs)
    case Ok(Some(m)) =>
      CollectedKeys(reg, verdict, args, tn, link, UPDATE);
      UpdateMaterialized(reg[tn].gqltype.fields, args, m, outcome, docs)
  }

  /** `onUpdateSubject` once the arguments are materialised as `m`. */
  function UpdateMaterialized(fs: seq<Field>, args: Value, m: Materialized, outcome: Outcomes,
                              docs: map<Value, Doc>): (r: Outcome)
    requires DeltaKeys(fs, m.collectionFields)
    ensures r.result.Ok? && r.result.value.Some? ==>
              Get(args, "id") in docs && r.docs == docs[Get(args, "id") := r.result.value.value]
    ensures r.result.Ok? && r.result.value.None? ==> Get(args, "id") !in docs && r.docs == docs
    ensures r.result.Err? ==> r.docs == docs
    ensures r.invoked == Execute(PlannedFrom(fs, m.collectionFields, 0, Get(args, "id")), outcome).invoked
  {
    var id := Get(args, "id");
    var nested := Execute(PlannedFrom(fs, m.collectionFields, 0, id), outcome);
    if nested.result.Err? then Outcome(nested.invoked, Err(nested.result.error), docs)
    else
      match Merge(fs, args, m.modelArgs, if id in docs then Some(docs[id]) else None)
      case Err(e) => Outcome(nested.invoked, Err(e), docs)
      case Ok(update) =>
        if id in docs then
          var written := Applied(docs[id], update);
          Outcome(nested.invoked, Ok(Some(written)), docs[id := written])
        else Outcome(nested.invoked, Ok(None), docs)
  }

  function NotValidId(entity: string, id: Value): AppError {
    SimfinityError(entity + " " + JsString(id) + " is not valid", "NOT_VALID_ID", 404)
  }

  function NotAllowed(state: Value): AppError {
    SimfinityError("Action is not allowed from state " + JsString(state), "BAD_REQUEST", 400)
  }

  /** The arguments of a transition's update: `args.state` set to the target state's name. */
  function WithState(args: Value, state: string): (r: Value)
    ensures r.Obj? && Get(r, "state") == Str(state)
    ensures forall k :: k != "state" ==> Get(r, k) == Get(args, k)
  {
    Obj((if args.Obj? then args.fields else map[])["state" := Str(state)])
  }

  /**
   * `onStateChanged`: a stored document whose `state` is the action's
   * source state is updated with `state` set to the target's name, and the
   * target's value is returned as its state; anything else is refused.
   */
  function TransitionOutcome(reg: Registry, verdict: Verdicts, tn: string, args: Value, action: Action,
                             outcome: Outcomes, docs: map<Value, Doc>): (r: Outcome)
    requires WellFormed(reg) && tn in reg
    ensures Get(args, "id") !in docs ==>
              r == Outcome([], Err(Known(NotValidId(reg[tn].gqltype.name, Get(args, "id")))), docs)
    ensures Get(args, "id") in docs && Lookup(docs[Get(args, "id")], "state") != Str(action.from.name) ==>
              r == Outcome([], Err(Known(NotAllowed(Lookup(docs[Get(args, "id")], "state")))), docs)
    ensures r.result.Ok? ==>
              && Get(args, "id") in docs && Lookup(docs[Get(args, "id")], "state") == Str(action.from.name)
              && r.result.value.Some? && Lookup(r.result.value.value, "state") == Str(action.to.value)
  {
    var id := Get(args, "id");
    if id !in docs then Outcome([], Err(Known(NotValidId(reg[tn].gqltype.name, id))), docs)
    else
      var state := Lookup(docs[id], "state");
      if state != Str(action.from.name) then Outcome([], Err(Known(NotAllowed(state))), docs)
      else
        var updated := UpdateOutcome(reg, verdict, tn, WithState(args, action.to.name), None, outcome, docs);
        match updated.result
        case Err(_) => updated
        case Ok(None) => updated.(result := Err(Unknown(NullRead("toObject"))))
        case Ok(Some(d)) => updated.(result := Ok(Some(d["state" := Str(action.to.value)])))
  }

  /**
   * `onSaveObject`: materialise the arguments for CREATE, stamp the
   * initial state's name, run the collection deltas on behalf of the new
   * id, then store the document; the initial state's value is returned as
   * its state.
   */
  function SaveOutcome(reg: Registry, verdict: Verdicts, tn: string, args: Value, link: Option<(string, Value)>,
                       newId: Value, outcome: Outcomes, docs: map<Value, Doc>): (r: Outcome)
    requires WellFormed(reg) && tn in reg && newId !in docs
    ensures r.result.Err? ==> r.docs == docs
    ensures r.result.Ok? ==> r.result.value.Some? && r.docs.Keys == docs.Keys + {newId} && r.docs == docs[newId := r.docs[newId]]
    ensures !Succeeds(reg, verdict, args, tn, link, CREATE) ==> r.invoked == [] && r.result.Err? && r.docs == docs
  {
    var run := Materialize.Materialize(reg, verdict, args, tn, link, CREATE);
    match run.result
    case Err(e) => Outcome([], Err(e), docs)
    case Ok(None) => Outcome([], Err(Unknown(NULL_MODEL_ARGS)), docs)
    case Ok(Some(m)) =>
      CollectedKeys(reg, verdict, args, tn, link, CREATE);
      SaveMaterialized(reg[tn].gqltype.fields, reg[tn].stateMachine, m, newId, outcome, docs)
  }

  /** `onSaveObject` once the arguments are materialised as `m`, for a type with the given state machine. */
  function SaveMaterialized(fs: seq<Field>, machine: Option<StateMachine>, m: Materialized, newId: Value,
                            outcome: Outcomes, docs: map<Value, Doc>): (r: Outcome)
    requires DeltaKeys(fs, m.collectionFields) && newId !in docs
    ensures r.result.Err? ==> r.docs == docs
    ensures r.result.Ok? ==> r.result.value.Some? && r.docs.Keys == docs.Keys + {newId} && r.docs == docs[newId := r.docs[newId]]
    ensures r.invoked == Execute(PlannedFrom(fs, m.collectionFields, 0, newId), outcome).invoked
    ensures r.result.Ok? ==>
              var stored := r.docs[newId];
              var returned := r.result.value.value;
              && Lookup(stored, ID_KEY) == newId
              && (machine.Some? ==>
                    Lookup(stored, "state") == Str(machine.value.initialState.name) &&
                    Lookup(returned, "state") == Str(machine.value.initialState.value))
              && (machine.None? ==> Lookup(stored, "state") == Lookup(m.modelArgs, "state") && returned == stored)
              && (forall k :: k != ID_KEY && k != "state" ==>
                    Lookup(stored, k) == Lookup(m.modelArgs, k) && Lookup(returned, k) == Lookup(stored, k))
  {
    var model := if machine.Some? then m.modelArgs["state" := Str(machine.value.initialState.name)] else m.modelArgs;
    var nested := Execute(PlannedFrom(fs, m.collectionFields, 0, newId), outcome);
    if nested.result.Err? then Outcome(nested.invoked, Err(nested.result.error), docs)
    else
      var stored := model[ID_KEY := newId];
      var returned := if machine.Some? then stored["state" := Str(machine.value.initialState.value)] else stored;
      Outcome(nested.invoked, Ok(Some(returned)), docs[newId := stored])
  }

  /** No materialised document holds `$unset` of its own: no field and no parent link writes it. */
  lemma MaterializedWithoutUnset(reg: Registry, verdict: Verdicts, args: Value, tn: string,
                                 link: Option<(string, Value)>, op: Operation)
    requires WellFormed(reg) && tn in reg && Succeeds(reg, verdict, args, tn, link, op)
    requires NoUnsetField(reg[tn].gqltype.fields) && (link.None? || link.value.0 != UNSET)
    ensures UNSET !in Built(reg, verdict, args, tn, link, op).modelArgs
  {
    EntityChecksSeeLinkedDocument(reg, verdict, args, tn, link, op);
    FieldsKeep(reg, verdict, args, tn, op, 0, Materialized(map[], []), UNSET);
  }

  /** An update removes every nullable field given as `null` from the stored document. */
  lemma UpdateRemovesNullFields(fs: seq<Field>, args: Value, m: Materialized, outcome: Outcomes,
                                docs: map<Value, Doc>, k: nat)
    requires DeltaKeys(fs, m.collectionFields) && NoUnsetField(fs) && UNSET !in m.modelArgs
    requires k < |fs| && Unsets(fs[k], args)
    requires UpdateMaterialized(fs, args, m, outcome, docs).result.Ok?
    requires UpdateMaterialized(fs, args, m, outcome, docs).result.value.Some?
    ensures fs[k].name !in UpdateMaterialized(fs, args, m, outcome, docs).result.value.value
  {
    var id := Get(args, "id");
    MergeUnsets(fs, args, m.modelArgs, Some(docs[id]), fs[k].name);
  }

  /**
   * An embedded field with a truthy new value, not also given as `null`,
   * is stored as the new value over the stored one.
   */
  lemma UpdateMergesEmbedded(fs: seq<Field>, args: Value, m: Materialized, outcome: Outcomes,
                             docs: map<Value, Doc>, k: nat)
    requires DeltaKeys(fs, m.collectionFields) && UniqueNames(fs) && NoUnsetField(fs) && UNSET !in m.modelArgs
    requires k < |fs| && EmbeddedRelation(fs[k]) && !Unsets(fs[k], args) && Truthy(Lookup(m.modelArgs, fs[k].name))
    requires UpdateMaterialized(fs, args, m, outcome, docs).result.Ok?
    requires UpdateMaterialized(fs, args, m, outcome, docs).result.value.Some?
    ensures var id := Get(args, "id");
            var d := UpdateMaterialized(fs, args, m, outcome, docs).result.value.value;
            fs[k].name in d && d[fs[k].name] == Combined(Lookup(docs[id], fs[k].name), Lookup(m.modelArgs, fs[k].name))
  {
    var id := Get(args, "id");
    var name := fs[k].name;
    MergeEmbedded(fs, args, m.modelArgs, docs[id], k);
    MergeUnsets(fs, args, m.modelArgs, Some(docs[id]), name);
    var update := Merge(fs, args, m.modelArgs, Some(docs[id])).value;
    assert name !in Unsetting(update) by {
      forall j | 0 <= j < |fs| && Unsets(fs[j], args) ensures fs[j].name != name {
        if j != k { assert fs[j].name != fs[k].name; }
      }
    }
    assert name in update;
  }

  /**
   * A stored key that the update does not set and no field names keeps its
   * stored value: `$set` leaves the rest of the document alone.
   */
  lemma UpdateKeepsStored(fs: seq<Field>, args: Value, m: Materialized, outcome: Outcomes,
                          docs: map<Value, Doc>, key: string)
    requires DeltaKeys(fs, m.collectionFields) && NoUnsetField(fs) && UNSET !in m.modelArgs
    requires key != UNSET && key !in m.modelArgs && forall j :: 0 <= j < |fs| ==> fs[j].name != key
    requires UpdateMaterialized(fs, args, m, outcome, docs).result.Ok?
    requires UpdateMaterialized(fs, args, m, outcome, docs).result.value.Some?
    requires Get(args, "id") in docs && key in docs[Get(args, "id")]
    ensures var d := UpdateMaterialized(fs, args, m, outcome, docs).result.value.value;
            key in d && d[key] == docs[Get(args, "id")][key]
  {
    var id := Get(args, "id");
    MergeKeeps(fs, args, m.modelArgs, Some(docs[id]), key);
    MergeUnsets(fs, args, m.modelArgs, Some(docs[id]), key);
  }

  /** Any other field the update holds, not also given as `null`, is stored as materialised. */
  lemma UpdateStoresField(fs: seq<Field>, args: Value, m: Materialized, outcome: Outcomes,
                          docs: map<Value, Doc>, k: nat)
    requires DeltaKeys(fs, m.collectionFields) && UniqueNames(fs) && NoUnsetField(fs) && UNSET !in m.modelArgs
    requires k < |fs| && !EmbeddedRelation(fs[k]) && !Unsets(fs[k], args) && fs[k].name in m.modelArgs
    requires UpdateMaterialized(fs, args, m, outcome, docs).result.Ok?
    requires UpdateMaterialized(fs, args, m, outcome, docs).result.value.Some?
    ensures var d := UpdateMaterialized(fs, args, m, outcome, docs).result.value.value;
            fs[k].name in d && d[fs[k].name] == m.modelArgs[fs[k].name]
  {
    var id := Get(args, "id");
    var name := fs[k].name;
    var update := Merge(fs, args, m.modelArgs, Some(docs[id])).value;
    assert forall j :: 0 <= j < |fs| && EmbeddedRelation(fs[j]) ==> fs[j].name != name by {
      forall j | 0 <= j < |fs| && EmbeddedRelation(fs[j]) ensures fs[j].name != name {
        if j != k { assert fs[j].name != fs[k].name; }
      }
    }
    MergeKeeps(fs, args, m.modelArgs, Some(docs[id]), name);
    MergeUnsets(fs, args, m.modelArgs, Some(docs[id]), name);
    assert name !in Unsetting(update) by {
      forall j | 0 <= j < |fs| && Unsets(fs[j], args) ensures fs[j].name != name {
        if j != k { assert fs[j].name != fs[k].name; }
      }
    }
  }

  /**
   * A transition that succeeds stores the target state's name: when the
   * type's `state` field is a plain scalar or enum field, no other field
   * writes its key, and the target's name is not empty.
   */
  lemma TransitionStoresTarget(reg: Registry, verdict: Verdicts, tn: string, args: Value, action: Action,
                               outcome: Outcomes, docs: map<Value, Doc>, k: nat)
    requires Isolated(reg, tn, None, k) && NoUnsetField(reg[tn].gqltype.fields)
    requires reg[tn].gqltype.fields[k].name == "state" && IsScalarLike(reg[tn].gqltype.fields[k].ty)
    requires !EmbeddedRelation(reg[tn].gqltype.fields[k]) && action.to.name != ""
    requires TransitionOutcome(reg, verdict, tn, args, action, outcome, docs).result.Ok?
    ensures var r := TransitionOutcome(reg, verdict, tn, args, action, outcome, docs);
            Get(args, "id") in r.docs && Lookup(r.docs[Get(args, "id")], "state") == Str(action.to.name)
  {
    var fs := reg[tn].gqltype.fields;
    var a := WithState(args, action.to.name);
    var u := UpdateOutcome(reg, verdict, tn, a, None, outcome, docs);
    assert u.result.Ok? && u.result.value.Some?;
    assert Succeeds(reg, verdict, a, tn, None, UPDATE);
    var m := Built(reg, verdict, a, tn, None, UPDATE);
    ScalarFieldCopied(reg, verdict, a, tn, None, UPDATE, k);
    MaterializedWithoutUnset(reg, verdict, a, tn, None, UPDATE);
    CollectedKeys(reg, verdict, a, tn, None, UPDATE);
    assert u == UpdateMaterialized(fs, a, m, outcome, docs);
    UpdateStoresField(fs, a, m, outcome, docs, k);
  }

  /** One entity's collection of stored documents, keyed by id. */
  class Collection {
    var docs: map<Value, Doc>

    constructor(docs: map<Value, Doc>)
      ensures this.docs == docs
    {
      this.docs := docs;
    }

    method UpdateSubject(reg: Registry, verdict: Verdicts, tn: string, args: Value, link: Option<(string, Value)>,
                         outcome: Outcomes) returns (invoked: seq<ItemCall>, result: Result<Option<Doc>, Thrown>)
      requires WellFormed(reg) && tn in reg
      modifies this
      ensures Outcome(invoked, result, docs) == UpdateOutcome(reg, verdict, tn, args, link, outcome, old(docs))
    {
      var run := MaterializeModel(reg, verdict, args, tn, link, UPDATE);
      if run.result.Err? {
        return [], Err(run.result.error);
      }
      if run.result.value.None? {
        return [], Err(Unknown(NullRead("collectionFields")));
      }
      CollectedKeys(reg, verdict, args, tn, link, UPDATE);
      ghost var target := UpdateMaterialized(reg[tn].gqltype.fields, args, run.result.value.value, outcome, docs);
      assert UpdateOutcome(reg, verdict, tn, args, link, outcome, docs) == target;
      invoked, result := UpdateWith(reg[tn].gqltype.fields, args, run.result.value.value, outcome);
    }

    /** `onUpdateSubject` from the materialised arguments on. */
    method UpdateWith(fs: seq<Field>, args: Value, m: Materialized, outcome: Outcomes)
      returns (invoked: seq<ItemCall>, result: Result<Option<Doc>, Thrown>)
      requires DeltaKeys(fs, m.collectionFields)
      modifies this
      ensures Outcome(invoked, result, docs) == UpdateMaterialized(fs, args, m, outcome, old(docs))
    {
      var id := Get(args, "id");
      var nested := IterateCollectionFields(fs, m.collectionFields, id, outcome);
      WalkPlanned(fs, m.collectionFields, id, outcome);
      invoked := nested.invoked;
      if nested.result.Err? {
        return invoked, Err(nested.result.error);
      }
      var current := if id in docs then Some(docs[id]) else None;
      var update := MergeUpdate(fs, args, m.modelArgs, current);
      if update.Err? {
        return invoked, Err(update.error);
      }
      if id !in docs {
        return invoked, Ok(None);
      }
      var written := Applied(docs[id], update.value);
      docs := docs[id := written];
      return invoked, Ok(Some(written));
    }

    method StateChanged(reg: Registry, verdict: Verdicts, tn: string, args: Value, action: Action, outcome: Outcomes)
      returns (invoked: seq<ItemCall>, result: Result<Option<Doc>, Thrown>)
      requires WellFormed(reg) && tn in reg
      modifies this
      ensures Outcome(invoked, result, docs) == TransitionOutcome(reg, verdict, tn, args, action, outcome, old(docs))
    {
      var id := Get(args, "id");
      if id !in docs {
        return [], Err(Known(NotValidId(reg[tn].gqltype.name, id)));
      }
      var state := Lookup(docs[id], "state");
      if state != Str(action.from.name) {
        return [], Err(Known(NotAllowed(state)));
      }
      invoked, result := UpdateSubject(reg, verdict, tn, WithState(args, action.to.name), None, outcome);
      if result.Err? {
        return;
      }
      if result.value.None? {
        return invoked, Err(Unknown(NullRead("toObject")));
      }
      return invoked, Ok(Some(result.value.value["state" := Str(action.to.value)]));
    }

    method SaveObject(reg: Registry, verdict: Verdicts, tn: string, args: Value, link: Option<(string, Value)>,
                      newId: Value, outcome: Outcomes) returns (invoked: seq<ItemCall>, result: Result<Option<Doc>, Thrown>)
      requires WellFormed(reg) && tn in reg && newId !in docs
      modifies this
      ensures Outcome(invoked, result, docs) == SaveOutcome(reg, verdict, tn, args, link, newId, outcome, old(docs))
    {
      var run := MaterializeModel(reg, verdict, args, tn, link, CREATE);
      if run.result.Err? {
        return [], Err(run.result.error);
      }
      if run.result.value.None? {
        return [], Err(Unknown(NULL_MODEL_ARGS));
      }
      CollectedKeys(reg, verdict, args, tn, link, CREATE);
      ghost var target := SaveMaterialized(reg[tn].gqltype.fields, reg[tn].stateMachine, run.result.value.value, newId, outcome, docs);
      assert SaveOutcome(reg, verdict, tn, args, link, newId, outcome, docs) == target;
      invoked, result := SaveWith(reg[tn].gqltype.fields, reg[tn].stateMachine, run.result.value.value, newId, outcome);
    }

    /** `onSaveObject` from the materialised arguments on. */
    method SaveWith(fs: seq<Field>, machine: Option<StateMachine>, m: Materialized, newId: Value, outcome: Outcomes)
      returns (invoked: seq<ItemCall>, result: Result<Option<Doc>, Thrown>)
      requires DeltaKeys(fs, m.collectionFields) && newId !in docs
      modifies this
      ensures Outcome(invoked, result, docs) == SaveMaterialized(fs, machine, m, newId, outcome, old(docs))
    {
      var model := m.modelArgs;
      if machine.Some? {
        model := model["state" := Str(machine.value.initialState.name)];
      }
      var nested := IterateCollectionFields(fs, m.collectionFields, newId, outcome);
      WalkPlanned(fs, m.collectionFields, newId, outcome);
      invoked := nested.invoked;
      if nested.result.Err? {
        return invoked, Err(nested.result.error);
      }
      var stored := model[ID_KEY := newId];
      docs := docs[newId := stored];
      var returned := stored;
      if machine.Some? {
        returned := returned["state" := Str(machine.value.initialState.value)];
      }
      return invoked, Ok(Some(returned));
    }
  }
}
