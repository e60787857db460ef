/**
 * The input-type synthesiser: `createOneToManyInputType`,
 * `graphQLListInputType`, `buildInputType` (src/index.js:164-313) and the
 * fixed point `buildPendingInputTypes` (src/index.js:319-344).
 */
module InputTypes {
  import opened Wrappers
  import opened Schema

  datatype Shape = AddShape | UpdateShape

  /** The GraphQL input types the synthesiser produces. */
  datatype InputType =
    | Plain(t: GqlType)                          // a scalar or enum field type, passed through
    | IdInput                                    // `IdInputType`, i.e. `{id: String!}`
    | RequiredIdInput                            // `new GraphQLNonNull(IdInputType)`
    | EntityInput(entity: string, shape: Shape)  // the add or update input type registered for an entity
    | ListOf(elem: InputType)
    | InputObject(name: string, fields: map<string, InputType>)

  datatype InputObjectType = InputObjectType(name: string, fields: map<string, InputType>)

  datatype InputShapes = InputShapes(add: InputObjectType, update: InputObjectType)

  /**
   * `createOneToManyInputType` (src/index.js:164-172): the collection delta
   * `{added: [add], updated: [update], deleted: [ID]}`.
   */
  function CreateOneToManyInputType(prefix: string, fieldName: string, addType: InputType, updateType: InputType)
    : (r: InputType)
    ensures r.InputObject? && r.name == "OneToMany" + prefix + fieldName
    ensures r.fields.Keys == {"added", "updated", "deleted"}
    ensures r.fields["added"] == ListOf(addType) && r.fields["updated"] == ListOf(updateType)
    ensures r.fields["deleted"] == ListOf(Plain(ID))
  {
    InputObject("OneToMany" + prefix + fieldName,
      map["added" := ListOf(addType), "updated" := ListOf(updateType), "deleted" := ListOf(Plain(ID))])
  }

  /** The state `buildInputType` reads: the registry and which entities already have input types. */
  datatype Ctx = Ctx(reg: Registry, hasAdd: set<string>, hasUpdate: set<string>, self: string)

  predicate CtxOk(c: Ctx) {
    c.self in c.reg
  }

  function Fields(c: Ctx): seq<Field>
    requires CtxOk(c)
  {
    c.reg[c.self].gqltype.fields
  }

  function HasMachine(c: Ctx): bool
    requires CtxOk(c)
  {
    c.reg[c.self].stateMachine.Some?
  }

  /**
   * `graphQLListInputType` (src/index.js:174-192) for one of the two
   * dictionaries: `has` says which entities that dictionary has input types for.
   */
  function GraphQLListInputType(has: set<string>, shape: Shape, f: Field, prefix: string): (r: Option<InputType>)
    requires f.ty.List?
    ensures f.ty.elem.Object? && f.ty.elem.typeName !in has ==> r.None?
    ensures f.ty.elem.Object? && f.ty.elem.typeName in has && f.relation.Some? && f.relation.value.embedded ==>
              r == Some(ListOf(EntityInput(f.ty.elem.typeName, shape)))
    ensures f.ty.elem.Object? && f.ty.elem.typeName in has && !(f.relation.Some? && f.relation.value.embedded) ==>
              r == Some(CreateOneToManyInputType(prefix, f.name, EntityInput(f.ty.elem.typeName, AddShape),
                                                 EntityInput(f.ty.elem.typeName, UpdateShape)))
    ensures (f.ty.elem.Scalar? || f.ty.elem.Enum?) ==> r == Some(ListOf(Plain(f.ty.elem)))
    ensures !(f.ty.elem.Object? || f.ty.elem.Scalar? || f.ty.elem.Enum?) ==> r.None?
  {
    var e := f.ty.elem;
    if e.Object? && e.typeName in has then
      if !(f.relation.Some? && f.relation.value.embedded) then
        Some(CreateOneToManyInputType(prefix, f.name, EntityInput(e.typeName, AddShape), EntityInput(e.typeName, UpdateShape)))
      else
        Some(ListOf(EntityInput(e.typeName, shape)))
    else if e.Scalar? || e.Enum? then Some(ListOf(Plain(e)))
    else None
  }

  /** How `buildInputType` treats one field. */
  datatype FieldRule =
    | ReadOnly                                      // excluded from both shapes
    | MachineOwned                                  // `state` under a state machine: excluded and flagged
    | SelfCollection                                // a list of the type itself: attached after both shapes exist
    | Blocked                                       // an embedded dependency has no input type yet
    | Entries(add: Option<InputType>, update: Option<InputType>)

  /** The per-field branch of `buildInputType` (src/index.js:206-269). */
  function Rule(c: Ctx, f: Field): FieldRule
    requires CtxOk(c)
  {
    if f.readOnly then ReadOnly
    else if f.name == "state" && HasMachine(c) then MachineOwned
    else if IsScalarLike(f.ty) then
      Entries(if f.name != "id" then Some(Plain(f.ty)) else None,
              Some(if f.ty == ID then Plain(NonNull(ID)) else Plain(Unwrap(f.ty))))
    else if IsObjectLike(f.ty) then
      if f.relation.None? then Entries(None, None)
      else if !f.relation.value.embedded then
        Entries(Some(if f.ty.NonNull? then RequiredIdInput else IdInput), Some(IdInput))
      else if ObjectName(f.ty) in c.hasAdd && ObjectName(f.ty) in c.hasUpdate then
        Entries(Some(EntityInput(ObjectName(f.ty), AddShape)), Some(EntityInput(ObjectName(f.ty), UpdateShape)))
      else Blocked
    else if f.ty.List? then
      if f.ty.elem == Object(c.self) then SelfCollection
      else
        var a := GraphQLListInputType(c.hasAdd, AddShape, f, "A");
        var u := GraphQLListInputType(c.hasUpdate, UpdateShape, f, "U");
        if a.Some? && u.Some? then Entries(a, u) else Blocked
    else Entries(None, None)
  }

  /** Which entry of a field a dictionary is built from. */
  datatype EntryKind =
    | Whole(shape: Shape)   // the entry in the finished input type
    | Loop(shape: Shape)    // the entry the main loop gives it (self collections excluded)

  function OneToManySelf(self: string, f: Field, shape: Shape): InputType {
    CreateOneToManyInputType(if shape == AddShape then "A" else "U", f.name,
                             EntityInput(self, AddShape), EntityInput(self, UpdateShape))
  }

  /** The entry a field governed by `rule` contributes to the dictionary `kind`. */
  function EntryOf(self: string, rule: FieldRule, kind: EntryKind, f: Field): Option<InputType> {
    match rule
    case Entries(a, u) => if kind.shape == AddShape then a else u
    case SelfCollection => if kind.Loop? then None else Some(OneToManySelf(self, f, kind.shape))
    case _ => None
  }

  /** The rule of every field, in order. */
  function Rules(c: Ctx, fs: seq<Field>): (rs: seq<FieldRule>)
    requires CtxOk(c)
    ensures |rs| == |fs|
  {
    if |fs| == 0 then [] else Rules(c, fs[..|fs| - 1]) + [Rule(c, fs[|fs| - 1])]
  }

  lemma {:induction false} RulesAt(c: Ctx, fs: seq<Field>, i: nat)
    requires CtxOk(c) && i < |fs|
    ensures Rules(c, fs)[i] == Rule(c, fs[i])
  {
    if i < |fs| - 1 {
      RulesAt(c, fs[..|fs| - 1], i);
    }
  }

  /** The dictionary built from the fields that have an entry, in field order. */
  function Collect(self: string, fs: seq<Field>, rs: seq<FieldRule>, kind: EntryKind): map<string, InputType>
    requires |rs| == |fs|
  {
    if |fs| == 0 then map[]
    else
      var n := |fs| - 1;
      var m := Collect(self, fs[..n], rs[..n], kind);
      var e := EntryOf(self, rs[n], kind, fs[n]);
      if e.Some? then m[fs[n].name := e.value] else m
  }

  /** Some field's rule (`Rules(c, Fields(c))[i]` is the rule of field `i`) makes `buildInputType` return null. */
  predicate SomeFieldBlocked(c: Ctx)
    requires CtxOk(c)
  {
    var rs := Rules(c, Fields(c));
    exists i :: 0 <= i < |rs| && rs[i].Blocked?
  }

  /** The `state` field is flagged when the loop reaches it before returning null. */
  predicate MarksState(c: Ctx)
    requires CtxOk(c)
  {
    var rs := Rules(c, Fields(c));
    exists i :: 0 <= i < |rs| && rs[i].MachineOwned? && forall j :: 0 <= j < i ==> !rs[j].Blocked?
  }

  /** One finished shape of an entity. */
  function ShapeFields(c: Ctx, shape: Shape): map<string, InputType>
    requires CtxOk(c)
  {
    Collect(c.self, Fields(c), Rules(c, Fields(c)), Whole(shape))
  }

  /** The two input types `buildInputType` returns when no field blocks. */
  function ShapesOf(c: Ctx): InputShapes
    requires CtxOk(c)
  {
    InputShapes(
      InputObjectType(c.self + "Input", ShapeFields(c, AddShape)),
      InputObjectType(c.self + "InputForUpdate", ShapeFields(c, UpdateShape)))
  }

  /** `Object.keys(selfReferenceCollections)`: the self collections in field order. */
  function SelfFields(fs: seq<Field>, rs: seq<FieldRule>): seq<Field>
    requires |rs| == |fs|
  {
    if |fs| == 0 then []
    else
      var n := |fs| - 1;
      SelfFields(fs[..n], rs[..n]) + if rs[n].SelfCollection? then [fs[n]] else []
  }

  /** What the deferred step adds: a one-to-many delta for every listed self collection. */
  function SelfPart(self: string, selfs: seq<Field>, shape: Shape): map<string, InputType> {
    if |selfs| == 0 then map[]
    else
      var n := |selfs| - 1;
      SelfPart(self, selfs[..n], shape)[selfs[n].name := OneToManySelf(self, selfs[n], shape)]
  }

  // ---------------------------------------------------------------------------
  // Facts about Collect

  lemma {:induction false} CollectKeys(self: string, fs: seq<Field>, rs: seq<FieldRule>, kind: EntryKind, k: string)
    requires |rs| == |fs| && k in Collect(self, fs, rs, kind)
    ensures exists i :: 0 <= i < |fs| && fs[i].name == k && EntryOf(self, rs[i], kind, fs[i]).Some?
  {
    var n := |fs| - 1;
    if !(EntryOf(self, rs[n], kind, fs[n]).Some? && fs[n].name == k) {
      CollectKeys(self, fs[..n], rs[..n], kind, k);
      var i :| 0 <= i < n && fs[..n][i].name == k && EntryOf(self, rs[..n][i], kind, fs[..n][i]).Some?;
      assert fs[i] == fs[..n][i] && rs[i] == rs[..n][i];
    }
  }

  /** With distinct names, a field is in the dictionary exactly when it has an entry, under that entry. */
  lemma {:induction false} CollectAt(self: string, fs: seq<Field>, rs: seq<FieldRule>, kind: EntryKind, i: nat)
    requires |rs| == |fs| && UniqueNames(fs) && i < |fs|
    ensures fs[i].name in Collect(self, fs, rs, kind) <==> EntryOf(self, rs[i], kind, fs[i]).Some?
    ensures EntryOf(self, rs[i], kind, fs[i]).Some? ==>
              Collect(self, fs, rs, kind)[fs[i].name] == EntryOf(self, rs[i], kind, fs[i]).value
  {
    var n := |fs| - 1;
    if i < n {
      assert fs[..n][i] == fs[i] && rs[..n][i] == rs[i];
      assert UniqueNames(fs[..n]);
      CollectAt(self, fs[..n], rs[..n], kind, i);
    } else if fs[i].name in Collect(self, fs[..n], rs[..n], kind) {
      CollectKeys(self, fs[..n], rs[..n], kind, fs[i].name);
    }
  }

  lemma CollectStep(self: string, fs: seq<Field>, rs: seq<FieldRule>, kind: EntryKind, i: nat)
    requires |rs| == |fs| && i < |fs|
    ensures Collect(self, fs[..i + 1], rs[..i + 1], kind) ==
            if EntryOf(self, rs[i], kind, fs[i]).Some?
            then Collect(self, fs[..i], rs[..i], kind)[fs[i].name := EntryOf(self, rs[i], kind, fs[i]).value]
            else Collect(self, fs[..i], rs[..i], kind)
  {
    assert fs[..i + 1][..i] == fs[..i] && rs[..i + 1][..i] == rs[..i];
  }

  lemma SelfFieldsStep(fs: seq<Field>, rs: seq<FieldRule>, i: nat)
    requires |rs| == |fs| && i < |fs|
    ensures SelfFields(fs[..i + 1], rs[..i + 1]) ==
            SelfFields(fs[..i], rs[..i]) + if rs[i].SelfCollection? then [fs[i]] else []
  {
    assert fs[..i + 1][..i] == fs[..i] && rs[..i + 1][..i] == rs[..i];
  }

  /** Self collections are drawn from the fields whose rule says so. */
  lemma {:induction false} SelfFieldsFrom(fs: seq<Field>, rs: seq<FieldRule>, g: Field)
    requires |rs| == |fs| && g in SelfFields(fs, rs)
    ensures exists i :: 0 <= i < |fs| && fs[i] == g && rs[i].SelfCollection?
  {
    var n := |fs| - 1;
    if g in SelfFields(fs[..n], rs[..n]) {
      SelfFieldsFrom(fs[..n], rs[..n], g);
      var i :| 0 <= i < n && fs[..n][i] == g && rs[..n][i].SelfCollection?;
      assert fs[i] == fs[..n][i] && rs[i] == rs[..n][i];
    }
  }

  lemma {:induction false} SelfPartKeys(self: string, selfs: seq<Field>, shape: Shape, k: string)
    requires k in SelfPart(self, selfs, shape)
    ensures exists j :: 0 <= j < |selfs| && selfs[j].name == k
  {
    var n := |selfs| - 1;
    if selfs[n].name != k {
      SelfPartKeys(self, selfs[..n], shape, k);
      var j :| 0 <= j < n && selfs[..n][j].name == k;
      assert selfs[j] == selfs[..n][j];
    }
  }

  lemma SelfPartStep(self: string, selfs: seq<Field>, shape: Shape, k: nat)
    requires k < |selfs|
    ensures SelfPart(self, selfs[..k + 1], shape) == SelfPart(self, selfs[..k], shape)[selfs[k].name := OneToManySelf(self, selfs[k], shape)]
  {
    assert selfs[..k + 1][..k] == selfs[..k];
  }

  lemma UnionUpdateRight(m: map<string, InputType>, n: map<string, InputType>, k: string, v: InputType)
    ensures m + n[k := v] == (m + n)[k := v]
  {
  }

  lemma UnionUpdateLeft(m: map<string, InputType>, n: map<string, InputType>, k: string, v: InputType)
    requires k !in n
    ensures m[k := v] + n == (m + n)[k := v]
  {
  }

  /** A field that is not a self collection adds nothing to the deferred part. */
  lemma {:induction false} LaterAvoids(self: string, fs: seq<Field>, rs: seq<FieldRule>, shape: Shape, i: nat)
    requires |rs| == |fs| && UniqueNames(fs) && i < |fs|
    ensures fs[i].name !in SelfPart(self, SelfFields(fs[..i], rs[..i]), shape)
  {
    var p := SelfFields(fs[..i], rs[..i]);
    if fs[i].name in SelfPart(self, p, shape) {
      SelfPartKeys(self, p, shape, fs[i].name);
      var j :| 0 <= j < |p| && p[j].name == fs[i].name;
      SelfFieldsFrom(fs[..i], rs[..i], p[j]);
    }
  }

  /**
   * Building the self collections in a second pass gives the same dictionary
   * as building every field in one pass.
   */
  lemma {:induction false} CollectSplit(self: string, fs: seq<Field>, rs: seq<FieldRule>, shape: Shape)
    requires |rs| == |fs| && UniqueNames(fs)
    ensures Collect(self, fs, rs, Loop(shape)) + SelfPart(self, SelfFields(fs, rs), shape) == Collect(self, fs, rs, Whole(shape))
  {
    if |fs| > 0 {
      var n := |fs| - 1;
      assert fs[..n + 1] == fs && rs[..n + 1] == rs;
      assert UniqueNames(fs[..n]);
      CollectSplit(self, fs[..n], rs[..n], shape);
      CollectStep(self, fs, rs, Loop(shape), n);
      CollectStep(self, fs, rs, Whole(shape), n);
      SelfFieldsStep(fs, rs, n);
      var p := SelfFields(fs[..n], rs[..n]);
      var lp := Collect(self, fs[..n], rs[..n], Loop(shape));
      var lt := SelfPart(self, p, shape);
      if rs[n].SelfCollection? {
        var q := p + [fs[n]];
        assert q[..|p|] == p;
        SelfPartStep(self, q, shape, |p|);
        UnionUpdateRight(lp, lt, fs[n].name, OneToManySelf(self, fs[n], shape));
      } else {
        assert EntryOf(self, rs[n], Whole(shape), fs[n]) == EntryOf(self, rs[n], Loop(shape), fs[n]);
        assert SelfFields(fs, rs) == p;
        if EntryOf(self, rs[n], Loop(shape), fs[n]).Some? {
          LaterAvoids(self, fs, rs, shape, n);
          UnionUpdateLeft(lp, lt, fs[n].name, EntryOf(self, rs[n], Loop(shape), fs[n]).value);
        }
      }
    }
  }

  /** Which of the main loop's paths one field takes (src/index.js:206-269). */
  datatype Step = Continue | FlagState | Defer | ReturnNull

  method FieldArgs(reg: Registry, hasAdd: set<string>, hasUpdate: set<string>, name: string, f: Field)
    returns (arg: Option<InputType>, argForUpdate: Option<InputType>, step: Step)
    requires name in reg
    ensures var c := Ctx(reg, hasAdd, hasUpdate, name);
            && (step == ReturnNull <==> Rule(c, f).Blocked?)
            && (step == FlagState <==> Rule(c, f).MachineOwned?)
            && (step == Defer <==> Rule(c, f).SelfCollection?)
            && arg == EntryOf(name, Rule(c, f), Loop(AddShape), f)
            && argForUpdate == EntryOf(name, Rule(c, f), Loop(UpdateShape), f)
  {
    arg, argForUpdate, step := None, None, Continue;
    if f.readOnly {
    } else if f.name == "state" && reg[name].stateMachine.Some? {
      step := FlagState;
    } else if IsScalarLike(f.ty) {
      if f.name != "id" {
        arg := Some(Plain(f.ty));
      }
      argForUpdate := Some(Plain(if f.ty.NonNull? then f.ty.inner else f.ty));
      if f.ty == ID {
        argForUpdate := Some(Plain(NonNull(ID)));
      }
    } else if IsObjectLike(f.ty) {
      if f.relation.Some? {
        var typeName := if f.ty.NonNull? then f.ty.inner.typeName else f.ty.typeName;
        if !f.relation.value.embedded {
          arg := Some(if f.ty.NonNull? then RequiredIdInput else IdInput);
          argForUpdate := Some(IdInput);
        } else if typeName in hasAdd && typeName in hasUpdate {
          arg := Some(EntityInput(typeName, AddShape));
          argForUpdate := Some(EntityInput(typeName, UpdateShape));
        } else {
          step := ReturnNull;
        }
      }
    } else if f.ty.List? {
      if f.ty.elem == Object(name) {
        step := Defer;
      } else {
        var listInputTypeForAdd := GraphQLListInputType(hasAdd, AddShape, f, "A");
        var listInputTypeForUpdate := GraphQLListInputType(hasUpdate, UpdateShape, f, "U");
        if listInputTypeForAdd.Some? && listInputTypeForUpdate.Some? {
          arg := listInputTypeForAdd;
          argForUpdate := listInputTypeForUpdate;
        } else {
          step := ReturnNull;
        }
      }
    }
  }

  // ---------------------------------------------------------------------------
  // buildInputType

  /** The deferred step of `buildInputType` (src/index.js:281-294): one delta per self collection, in both shapes. */
  method AttachSelfCollections(name: string, fieldsArgs: map<string, InputType>, fieldsArgForUpdate: map<string, InputType>,
                               selfReferenceCollections: seq<Field>)
    returns (addFields: map<string, InputType>, updateFields: map<string, InputType>)
    ensures addFields == fieldsArgs + SelfPart(name, selfReferenceCollections, AddShape)
    ensures updateFields == fieldsArgForUpdate + SelfPart(name, selfReferenceCollections, UpdateShape)
  {
    addFields, updateFields := fieldsArgs, fieldsArgForUpdate;
    var k := 0;
    while k < |selfReferenceCollections|
      invariant 0 <= k <= |selfReferenceCollections|
      invariant addFields == fieldsArgs + SelfPart(name, selfReferenceCollections[..k], AddShape)
      invariant updateFields == fieldsArgForUpdate + SelfPart(name, selfReferenceCollections[..k], UpdateShape)
    {
      var f := selfReferenceCollections[k];
      var forAdd := CreateOneToManyInputType("A", f.name, EntityInput(name, AddShape), EntityInput(name, UpdateShape));
      var forUpdate := CreateOneToManyInputType("U", f.name, EntityInput(name, AddShape), EntityInput(name, UpdateShape));
      assert forAdd == OneToManySelf(name, f, AddShape) && forUpdate == OneToManySelf(name, f, UpdateShape);
      SelfPartStep(name, selfReferenceCollections, AddShape, k);
      SelfPartStep(name, selfReferenceCollections, UpdateShape, k);
      UnionUpdateRight(fieldsArgs, SelfPart(name, selfReferenceCollections[..k], AddShape), f.name, forAdd);
      UnionUpdateRight(fieldsArgForUpdate, SelfPart(name, selfReferenceCollections[..k], UpdateShape), f.name, forUpdate);
      addFields := addFields[f.name := forAdd];
      updateFields := updateFields[f.name := forUpdate];
      k := k + 1;
    }
    assert selfReferenceCollections[..k] == selfReferenceCollections;
  }

  /**
   * `buildInputType` (src/index.js:194-313): null when a field's embedded
   * dependency has no input type yet, otherwise the add and update input types;
   * `marked` says whether the `state` field was flagged `stateMachine` on the way.
   */
  predicate NoneBlockedBefore(rs: seq<FieldRule>, i: nat)
    requires i <= |rs|
  {
    forall j :: 0 <= j < i ==> !rs[j].Blocked?
  }

  predicate StateSeenBefore(rs: seq<FieldRule>, i: nat)
    requires i <= |rs|
  {
    exists j :: 0 <= j < i && rs[j].MachineOwned?
  }

  lemma RulesSeenStep(rs: seq<FieldRule>, i: nat)
    requires i < |rs| && NoneBlockedBefore(rs, i) && !rs[i].Blocked?
    ensures NoneBlockedBefore(rs, i + 1)
    ensures StateSeenBefore(rs, i + 1) <==> StateSeenBefore(rs, i) || rs[i].MachineOwned?
  {
  }

  /** The loop returns null at the first blocked field, having flagged `state` only if it came earlier. */
  lemma ReturnsAtBlocked(c: Ctx, i: nat)
    requires CtxOk(c) && i < |Rules(c, Fields(c))|
    requires NoneBlockedBefore(Rules(c, Fields(c)), i) && Rules(c, Fields(c))[i].Blocked?
    ensures SomeFieldBlocked(c)
    ensures MarksState(c) <==> StateSeenBefore(Rules(c, Fields(c)), i)
  {
    var rs := Rules(c, Fields(c));
    if MarksState(c) {
      var j :| 0 <= j < |rs| && rs[j].MachineOwned? && forall j' :: 0 <= j' < j ==> !rs[j'].Blocked?;
      assert j < i;
    }
  }

  /** The loop completes when no field is blocked. */
  lemma CompletesUnblocked(c: Ctx)
    requires CtxOk(c) && NoneBlockedBefore(Rules(c, Fields(c)), |Rules(c, Fields(c))|)
    ensures !SomeFieldBlocked(c)
    ensures MarksState(c) <==> StateSeenBefore(Rules(c, Fields(c)), |Rules(c, Fields(c))|)
  {
  }

  method BuildInputType(reg: Registry, hasAdd: set<string>, hasUpdate: set<string>, name: string)
    returns (r: Option<InputShapes>, marked: bool)
    requires name in reg && UniqueNames(reg[name].gqltype.fields)
    ensures var c := Ctx(reg, hasAdd, hasUpdate, name);
            && (r.None? <==> SomeFieldBlocked(c))
            && (r.Some? ==> r.value == ShapesOf(c))
            && (marked <==> MarksState(c))
  {
    ghost var c := Ctx(reg, hasAdd, hasUpdate, name);
    var fs := reg[name].gqltype.fields;
    assert Fields(c) == fs;
    ghost var rs := Rules(c, fs);
    var fieldsArgs: map<string, InputType> := map[];
    var fieldsArgForUpdate: map<string, InputType> := map[];
    var selfReferenceCollections: seq<Field> := [];
    marked := false;
    var i := 0;
    while i < |fs|
      invariant 0 <= i <= |fs|
      invariant fieldsArgs == Collect(name, fs[..i], rs[..i], Loop(AddShape))
      invariant fieldsArgForUpdate == Collect(name, fs[..i], rs[..i], Loop(UpdateShape))
      invariant selfReferenceCollections == SelfFields(fs[..i], rs[..i])
      invariant NoneBlockedBefore(rs, i)
      invariant marked <==> StateSeenBefore(rs, i)
    {
      var f := fs[i];
      CollectStep(name, fs, rs, Loop(AddShape), i);
      CollectStep(name, fs, rs, Loop(UpdateShape), i);
      SelfFieldsStep(fs, rs, i);
      var arg, argForUpdate, step := FieldArgs(reg, hasAdd, hasUpdate, name, f);
      RulesAt(c, fs, i);
      if step == ReturnNull {
        ReturnsAtBlocked(c, i);
        return None, marked;
      }
      RulesSeenStep(rs, i);
      if step == FlagState {
        marked := true;
      } else if step == Defer {
        selfReferenceCollections := selfReferenceCollections + [f];
      }
      if arg.Some? {
        fieldsArgs := fieldsArgs[f.name := arg.value];
      }
      if argForUpdate.Some? {
        fieldsArgForUpdate := fieldsArgForUpdate[f.name := argForUpdate.value];
      }
      i := i + 1;
    }
    assert fs[..|fs|] == fs && rs[..|fs|] == rs;
    CompletesUnblocked(c);

    // The self collections are attached once both input types exist.
    var addFields, updateFields := AttachSelfCollections(name, fieldsArgs, fieldsArgForUpdate, selfReferenceCollections);
    CollectSplit(name, fs, rs, AddShape);
    CollectSplit(name, fs, rs, UpdateShape);
    r := Some(InputShapes(InputObjectType(name + "Input", addFields), InputObjectType(name + "InputForUpdate", updateFields)));
  }

  // ---------------------------------------------------------------------------
  // What the two input types contain, field by field

  /** A field that is neither read-only nor a state-machine-owned `state`. */
  predicate Editable(c: Ctx, f: Field)
    requires CtxOk(c)
  {
    !f.readOnly && !(f.name == "state" && HasMachine(c))
  }

  lemma ShapeEntry(c: Ctx, i: nat, shape: Shape)
    requires CtxOk(c) && UniqueNames(Fields(c)) && i < |Fields(c)|
    ensures var f := Fields(c)[i];
            var e := EntryOf(c.self, Rule(c, f), Whole(shape), f);
            && (f.name in ShapeFields(c, shape) <==> e.Some?)
            && (e.Some? ==> ShapeFields(c, shape)[f.name] == e.value)
  {
    CollectAt(c.self, Fields(c), Rules(c, Fields(c)), Whole(shape), i);
    RulesAt(c, Fields(c), i);
  }

  /** Read-only fields and a `state` field under a state machine appear in neither input type. */
  lemma ExcludedFieldsOmitted(c: Ctx, i: nat)
    requires CtxOk(c) && UniqueNames(Fields(c)) && i < |Fields(c)|
    requires !Editable(c, Fields(c)[i])
    ensures Fields(c)[i].name !in ShapesOf(c).add.fields
    ensures Fields(c)[i].name !in ShapesOf(c).update.fields
  {
    ShapeEntry(c, i, AddShape);
    ShapeEntry(c, i, UpdateShape);
  }

  /** A scalar `id` is never part of the add input type. */
  lemma IdNeverInAddShape(c: Ctx, i: nat)
    requires CtxOk(c) && UniqueNames(Fields(c)) && i < |Fields(c)|
    requires Fields(c)[i].name == "id" && IsScalarLike(Fields(c)[i].ty)
    ensures "id" !in ShapesOf(c).add.fields
  {
    ShapeEntry(c, i, AddShape);
  }

  /**
   * An editable scalar or enum keeps its type for adding (unless it is `id`)
   * and loses its NonNull for updating, except that a plain `ID` becomes `ID!`.
   */
  lemma ScalarFieldShapes(c: Ctx, i: nat)
    requires CtxOk(c) && UniqueNames(Fields(c)) && i < |Fields(c)|
    requires IsScalarLike(Fields(c)[i].ty) && Editable(c, Fields(c)[i])
    ensures var f := Fields(c)[i];
            && (f.name in ShapesOf(c).add.fields <==> f.name != "id")
            && (f.name != "id" ==> ShapesOf(c).add.fields[f.name] == Plain(f.ty))
            && f.name in ShapesOf(c).update.fields
            && ShapesOf(c).update.fields[f.name] == (if f.ty == ID then Plain(NonNull(ID)) else Plain(Unwrap(f.ty)))
  {
    ShapeEntry(c, i, AddShape);
    ShapeEntry(c, i, UpdateShape);
  }

  /** A non-embedded relation is given by id: `IdInput`, required for adding when the field is NonNull. */
  lemma ReferenceFieldShapes(c: Ctx, i: nat)
    requires CtxOk(c) && UniqueNames(Fields(c)) && i < |Fields(c)|
    requires var f := Fields(c)[i];
             IsObjectLike(f.ty) && f.relation.Some? && !f.relation.value.embedded && Editable(c, f)
    ensures var f := Fields(c)[i];
            && f.name in ShapesOf(c).add.fields && f.name in ShapesOf(c).update.fields
            && ShapesOf(c).add.fields[f.name] == (if f.ty.NonNull? then RequiredIdInput else IdInput)
            && ShapesOf(c).update.fields[f.name] == IdInput
  {
    ShapeEntry(c, i, AddShape);
    ShapeEntry(c, i, UpdateShape);
  }

  /** An object field without a relation is left out of both input types. */
  lemma UnrelatedObjectOmitted(c: Ctx, i: nat)
    requires CtxOk(c) && UniqueNames(Fields(c)) && i < |Fields(c)|
    requires IsObjectLike(Fields(c)[i].ty) && Fields(c)[i].relation.None?
    ensures Fields(c)[i].name !in ShapesOf(c).add.fields
    ensures Fields(c)[i].name !in ShapesOf(c).update.fields
  {
    ShapeEntry(c, i, AddShape);
    ShapeEntry(c, i, UpdateShape);
  }

  /**
   * An embedded object takes the embedded type's own input types once both
   * exist; while either is missing the whole entity blocks.
   */
  lemma EmbeddedFieldShapes(c: Ctx, i: nat)
    requires CtxOk(c) && UniqueNames(Fields(c)) && i < |Fields(c)|
    requires var f := Fields(c)[i];
             IsObjectLike(f.ty) && f.relation.Some? && f.relation.value.embedded && Editable(c, f)
    ensures var f := Fields(c)[i];
            var n := ObjectName(f.ty);
            && (!(n in c.hasAdd && n in c.hasUpdate) ==> SomeFieldBlocked(c))
            && (n in c.hasAdd && n in c.hasUpdate ==>
                  && f.name in ShapesOf(c).add.fields && f.name in ShapesOf(c).update.fields
                  && ShapesOf(c).add.fields[f.name] == EntityInput(n, AddShape)
                  && ShapesOf(c).update.fields[f.name] == EntityInput(n, UpdateShape))
  {
    ShapeEntry(c, i, AddShape);
    ShapeEntry(c, i, UpdateShape);
    RulesAt(c, Fields(c), i);
  }

  /** A list of the entity itself becomes a `OneToManyA…`/`OneToManyU…` delta over the entity's own input types. */
  lemma SelfCollectionShapes(c: Ctx, i: nat)
    requires CtxOk(c) && UniqueNames(Fields(c)) && i < |Fields(c)|
    requires Fields(c)[i].ty == List(Object(c.self)) && Editable(c, Fields(c)[i])
    ensures var f := Fields(c)[i];
            && f.name in ShapesOf(c).add.fields && f.name in ShapesOf(c).update.fields
            && ShapesOf(c).add.fields[f.name] ==
                 CreateOneToManyInputType("A", f.name, EntityInput(c.self, AddShape), EntityInput(c.self, UpdateShape))
            && ShapesOf(c).update.fields[f.name] ==
                 CreateOneToManyInputType("U", f.name, EntityInput(c.self, AddShape), EntityInput(c.self, UpdateShape))
  {
    ShapeEntry(c, i, AddShape);
    ShapeEntry(c, i, UpdateShape);
  }

  /**
   * A list of another entity: a delta over that entity's input types when the
   * relation is not embedded, a plain list of them when it is; the entity
   * blocks while either input type is missing.
   */
  lemma EntityListShapes(c: Ctx, i: nat)
    requires CtxOk(c) && UniqueNames(Fields(c)) && i < |Fields(c)|
    requires var f := Fields(c)[i];
             f.ty.List? && f.ty.elem.Object? && f.ty.elem.typeName != c.self && Editable(c, f)
    ensures var f := Fields(c)[i];
            var n := f.ty.elem.typeName;
            var embedded := f.relation.Some? && f.relation.value.embedded;
            && (!(n in c.hasAdd && n in c.hasUpdate) ==> SomeFieldBlocked(c))
            && (n in c.hasAdd && n in c.hasUpdate ==>
                  && f.name in ShapesOf(c).add.fields && f.name in ShapesOf(c).update.fields
                  && ShapesOf(c).add.fields[f.name] ==
                       (if embedded then ListOf(EntityInput(n, AddShape))
                        else CreateOneToManyInputType("A", f.name, EntityInput(n, AddShape), EntityInput(n, UpdateShape)))
                  && ShapesOf(c).update.fields[f.name] ==
                       (if embedded then ListOf(EntityInput(n, UpdateShape))
                        else CreateOneToManyInputType("U", f.name, EntityInput(n, AddShape), EntityInput(n, UpdateShape))))
  {
    ShapeEntry(c, i, AddShape);
    ShapeEntry(c, i, UpdateShape);
    RulesAt(c, Fields(c), i);
  }

  /** A list of scalars or enums is the same list in both input types. */
  lemma ScalarListShapes(c: Ctx, i: nat)
    requires CtxOk(c) && UniqueNames(Fields(c)) && i < |Fields(c)|
    requires var f := Fields(c)[i];
             f.ty.List? && (f.ty.elem.Scalar? || f.ty.elem.Enum?) && Editable(c, f)
    ensures var f := Fields(c)[i];
            && f.name in ShapesOf(c).add.fields && f.name in ShapesOf(c).update.fields
            && ShapesOf(c).add.fields[f.name] == ListOf(Plain(f.ty.elem))
            && ShapesOf(c).update.fields[f.name] == ListOf(Plain(f.ty.elem))
  {
    ShapeEntry(c, i, AddShape);
    ShapeEntry(c, i, UpdateShape);
  }

  /**
   * A list whose element is itself a wrapper (`[T!]`, `[[T]]`) blocks the
   * entity whatever has been built, so it never gets input types.
   */
  lemma WrappedListAlwaysBlocks(c: Ctx, i: nat)
    requires CtxOk(c) && i < |Fields(c)|
    requires var f := Fields(c)[i];
             f.ty.List? && (f.ty.elem.List? || f.ty.elem.NonNull?) && Editable(c, f)
    ensures SomeFieldBlocked(c)
  {
    RulesAt(c, Fields(c), i);
  }

  // ---------------------------------------------------------------------------
  // Building more input types never changes one already built

  lemma RuleGrows(c1: Ctx, c2: Ctx, f: Field)
    requires CtxOk(c1) && c2.reg == c1.reg && c2.self == c1.self
    requires c1.hasAdd <= c2.hasAdd && c1.hasUpdate <= c2.hasUpdate
    requires !Rule(c1, f).Blocked?
    ensures Rule(c2, f) == Rule(c1, f)
  {
  }

  /** While no field blocks, larger dictionaries give every field the same rule. */
  lemma {:induction false} RulesGrow(c1: Ctx, c2: Ctx, fs: seq<Field>, k: nat)
    requires CtxOk(c1) && c2.reg == c1.reg && c2.self == c1.self
    requires c1.hasAdd <= c2.hasAdd && c1.hasUpdate <= c2.hasUpdate
    requires k <= |fs| && forall i :: 0 <= i < k ==> !Rules(c1, fs)[i].Blocked?
    ensures Rules(c2, fs)[..k] == Rules(c1, fs)[..k]
  {
    if k > 0 {
      RulesGrow(c1, c2, fs, k - 1);
      RulesAt(c1, fs, k - 1);
      RulesAt(c2, fs, k - 1);
      RuleGrows(c1, c2, fs[k - 1]);
      assert Rules(c2, fs)[..k] == Rules(c2, fs)[..k - 1] + [Rules(c2, fs)[k - 1]];
      assert Rules(c1, fs)[..k] == Rules(c1, fs)[..k - 1] + [Rules(c1, fs)[k - 1]];
    }
  }

  /**
   * Once no field of an entity blocks, larger dictionaries give the entity the
   * same input types and the same `state` flag.
   */
  lemma ShapesGrow(c1: Ctx, c2: Ctx)
    requires CtxOk(c1) && c2.reg == c1.reg && c2.self == c1.self
    requires c1.hasAdd <= c2.hasAdd && c1.hasUpdate <= c2.hasUpdate
    requires !SomeFieldBlocked(c1)
    ensures !SomeFieldBlocked(c2)
    ensures ShapesOf(c2) == ShapesOf(c1)
    ensures MarksState(c2) <==> MarksState(c1)
  {
    var fs := Fields(c1);
    RulesGrow(c1, c2, fs, |fs|);
    assert Rules(c2, fs) == Rules(c2, fs)[..|fs|];
    assert Rules(c1, fs) == Rules(c1, fs)[..|fs|];
  }

  /** A `state` field flagged by a failed build stays flagged. */
  lemma MarksGrow(c1: Ctx, c2: Ctx)
    requires CtxOk(c1) && c2.reg == c1.reg && c2.self == c1.self
    requires c1.hasAdd <= c2.hasAdd && c1.hasUpdate <= c2.hasUpdate
    requires MarksState(c1)
    ensures MarksState(c2)
  {
    var fs := Fields(c1);
    var rs := Rules(c1, fs);
    var i :| 0 <= i < |rs| && rs[i].MachineOwned? && forall j :: 0 <= j < i ==> !rs[j].Blocked?;
    RulesGrow(c1, c2, fs, i);
    RulesAt(c1, fs, i);
    RulesAt(c2, fs, i);
    RuleGrows(c1, c2, fs[i]);
    var rs2 := Rules(c2, fs);
    assert forall j :: 0 <= j < i ==> rs2[j] == rs2[..i][j];
  }

  /**
   * Field `i` of entity `a` is an editable field that needs the input types
   * of entity `b`: an embedded object of `b` (src/index.js:233-238), or a
   * list of `b` other than a list of `a` itself, embedded, referenced or
   * without a relation (src/index.js:177, 246-254).
   */
  predicate NeedsAt(reg: Registry, a: string, b: string, i: nat)
    requires a in reg && i < |reg[a].gqltype.fields|
  {
    var f := reg[a].gqltype.fields[i];
    && ((IsObjectLike(f.ty) && ObjectName(f.ty) == b && f.relation.Some? && f.relation.value.embedded)
        || (f.ty.List? && f.ty.elem == Object(b) && b != a))
    && Editable(Ctx(reg, {}, {}, a), f)
  }

  /** Entity `a` cannot be built before entity `b`: a field it builds needs `b`'s input types. */
  predicate DependsOn(reg: Registry, a: string, b: string) {
    a in reg && exists i :: 0 <= i < |reg[a].gqltype.fields| && NeedsAt(reg, a, b, i)
  }

  /**
   * Two entities that need each other: each embeds the other or holds a
   * list of it (a many-to-many relation, say), or one entity embeds itself.
   */
  predicate DependencyCycle(reg: Registry, a: string, b: string) {
    DependsOn(reg, a, b) && DependsOn(reg, b, a)
  }

  /** An entity blocks while an entity it needs has no add input type. */
  lemma DependencyBlocks(reg: Registry, hasAdd: set<string>, hasUpdate: set<string>, a: string, b: string)
    requires DistinctFieldNames(reg) && DependsOn(reg, a, b) && b !in hasAdd
    ensures SomeFieldBlocked(Ctx(reg, hasAdd, hasUpdate, a))
  {
    var i :| 0 <= i < |reg[a].gqltype.fields| && NeedsAt(reg, a, b, i);
    var f := reg[a].gqltype.fields[i];
    if IsObjectLike(f.ty) {
      EmbeddedFieldShapes(Ctx(reg, hasAdd, hasUpdate, a), i);
    } else {
      EntityListShapes(Ctx(reg, hasAdd, hasUpdate, a), i);
    }
  }

  /** Two entities that need each other block each other while neither has input types. */
  lemma DependencyCycleBlocks(reg: Registry, hasAdd: set<string>, hasUpdate: set<string>, a: string, b: string)
    requires DistinctFieldNames(reg) && DependencyCycle(reg, a, b) && a !in hasAdd && b !in hasAdd
    ensures SomeFieldBlocked(Ctx(reg, hasAdd, hasUpdate, a)) && SomeFieldBlocked(Ctx(reg, hasAdd, hasUpdate, b))
  {
    DependencyBlocks(reg, hasAdd, hasUpdate, a, b);
    DependencyBlocks(reg, hasAdd, hasUpdate, b, a);
  }

  /** No entity of a cycle that was unbuilt in `before` is built in `after`. */
  ghost predicate CyclesUnbuilt(reg: Registry, before: set<string>, after: set<string>) {
    forall a, b :: DependencyCycle(reg, a, b) && a !in before && b !in before ==> a !in after && b !in after
  }

  lemma CyclesUnbuiltTrans(reg: Registry, s0: set<string>, s1: set<string>, s2: set<string>)
    requires CyclesUnbuilt(reg, s0, s1) && CyclesUnbuilt(reg, s1, s2)
    ensures CyclesUnbuilt(reg, s0, s2)
  {
  }

  // ---------------------------------------------------------------------------
  // buildPendingInputTypes

  lemma {:induction false} SubsetSmaller(a: set<string>, b: set<string>)
    requires a <= b
    ensures |a| <= |b|
  {
    if a != {} {
      var y :| y in a;
      SubsetSmaller(a - {y}, b - {y});
    }
  }

  lemma FewerOutside(keys: set<string>, before: set<string>, after: set<string>)
    requires before < after <= keys
    ensures |keys - after| < |keys - before|
  {
    var x :| x in after && x !in before;
    SubsetSmaller(keys - after, (keys - before) - {x});
  }

  /** Entity `n` holds exactly what building it against dictionaries `add` and `update` gives. */
  ghost predicate EntryHolds(reg: Registry, add: set<string>, update: set<string>, flagged: set<string>, n: string,
                             a: InputObjectType, u: InputObjectType)
  {
    var c := Ctx(reg, add, update, n);
    && n in reg
    && !SomeFieldBlocked(c)
    && a == ShapesOf(c).add && u == ShapesOf(c).update
    && (n in flagged <==> MarksState(c))
  }

  /** Entity `n` has had its `state` field flagged, as building it against `add` and `update` would. */
  ghost predicate FlagHolds(reg: Registry, add: set<string>, update: set<string>, n: string) {
    n in reg && MarksState(Ctx(reg, add, update, n))
  }

  /** Every registered entity's field names are distinct. */
  predicate DistinctFieldNames(reg: Registry) {
    forall n :: n in reg ==> UniqueNames(reg[n].gqltype.fields)
  }

  /** Every input type held in `add0` and `update0` is still held, unchanged. */
  predicate Keeps(add0: map<string, InputObjectType>, update0: map<string, InputObjectType>,
                  add: map<string, InputObjectType>, update: map<string, InputObjectType>)
  {
    forall n :: n in add0 ==>
      && n in add && add[n] == add0[n]
      && (n in update0 ==> n in update && update[n] == update0[n])
  }

  lemma KeepsTrans(add0: map<string, InputObjectType>, update0: map<string, InputObjectType>,
                   add1: map<string, InputObjectType>, update1: map<string, InputObjectType>,
                   add2: map<string, InputObjectType>, update2: map<string, InputObjectType>)
    requires Keeps(add0, update0, add1, update1) && Keeps(add1, update1, add2, update2)
    ensures Keeps(add0, update0, add2, update2)
  {
  }

  /** Recording a new entity keeps everything held before. */
  lemma InsertKeeps(add: map<string, InputObjectType>, update: map<string, InputObjectType>,
                    n: string, a: InputObjectType, u: InputObjectType)
    requires n !in add
    ensures Keeps(add, update, add[n := a], update[n := u])
    ensures add[n := a].Keys == add.Keys + {n}
  {
  }

  /** The invariant of the registry, on its values. */
  ghost predicate Consistent(reg: Registry, add: map<string, InputObjectType>, update: map<string, InputObjectType>,
                             machineOwned: set<string>)
  {
    && WellFormed(reg) && DistinctFieldNames(reg)
    && add.Keys == update.Keys && add.Keys <= reg.Keys
    && (forall n {:trigger EntryHolds(reg, add.Keys, update.Keys, machineOwned, n, add[n], update[n])} ::
          n in add ==> EntryHolds(reg, add.Keys, update.Keys, machineOwned, n, add[n], update[n]))
    && (forall n {:trigger FlagHolds(reg, add.Keys, update.Keys, n)} ::
          n in machineOwned ==> FlagHolds(reg, add.Keys, update.Keys, n))
  }

  /** What an entity holds stays right as the dictionaries grow. */
  lemma EntryHoldsGrows(reg: Registry, add: set<string>, update: set<string>, add': set<string>, update': set<string>,
                        flagged: set<string>, flagged': set<string>, n: string, a: InputObjectType, u: InputObjectType)
    requires add <= add' && update <= update' && (n in flagged <==> n in flagged')
    requires EntryHolds(reg, add, update, flagged, n, a, u)
    ensures EntryHolds(reg, add', update', flagged', n, a, u)
  {
    ShapesGrow(Ctx(reg, add, update, n), Ctx(reg, add', update', n));
  }

  lemma FlagHoldsGrows(reg: Registry, add: set<string>, update: set<string>, add': set<string>, update': set<string>, n: string)
    requires add <= add' && update <= update'
    requires FlagHolds(reg, add, update, n)
    ensures FlagHolds(reg, add', update', n)
  {
    MarksGrow(Ctx(reg, add, update, n), Ctx(reg, add', update', n));
  }

  /** An entity whose build returned null only gains the `state` flag, if it reached that field. */
  lemma RecordFailure(reg: Registry, add: map<string, InputObjectType>, update: map<string, InputObjectType>,
                      machineOwned: set<string>, n: string)
    requires Consistent(reg, add, update, machineOwned) && n in reg && n !in add
    ensures var c := Ctx(reg, add.Keys, update.Keys, n);
            Consistent(reg, add, update, machineOwned + (if MarksState(c) then {n} else {}))
  {
    var marks := machineOwned + (if MarksState(Ctx(reg, add.Keys, update.Keys, n)) then {n} else {});
    forall m | m in add
      ensures EntryHolds(reg, add.Keys, update.Keys, marks, m, add[m], update[m])
    {
      assert EntryHolds(reg, add.Keys, update.Keys, machineOwned, m, add[m], update[m]);
      EntryHoldsGrows(reg, add.Keys, update.Keys, add.Keys, update.Keys, machineOwned, marks, m, add[m], update[m]);
    }
    forall m | m in marks
      ensures FlagHolds(reg, add.Keys, update.Keys, m)
    {
      if m in machineOwned {
        assert FlagHolds(reg, add.Keys, update.Keys, m);
      }
    }
  }

  /** Recording the input types of an entity none of whose fields blocks keeps the registry consistent. */
  lemma RecordSuccess(reg: Registry, add: map<string, InputObjectType>, update: map<string, InputObjectType>,
                      machineOwned: set<string>, n: string)
    requires Consistent(reg, add, update, machineOwned) && n in reg && n !in add
    requires !SomeFieldBlocked(Ctx(reg, add.Keys, update.Keys, n))
    ensures var c := Ctx(reg, add.Keys, update.Keys, n);
            Consistent(reg, add[n := ShapesOf(c).add], update[n := ShapesOf(c).update],
                       machineOwned + (if MarksState(c) then {n} else {}))
  {
    var c := Ctx(reg, add.Keys, update.Keys, n);
    var marks := machineOwned + (if MarksState(c) then {n} else {});
    var add' := add[n := ShapesOf(c).add];
    var update' := update[n := ShapesOf(c).update];
    if n in machineOwned {
      assert FlagHolds(reg, add.Keys, update.Keys, n);
    }
    forall m | m in add'
      ensures EntryHolds(reg, add'.Keys, update'.Keys, marks, m, add'[m], update'[m])
    {
      if m == n {
        assert EntryHolds(reg, add.Keys, update.Keys, marks, m, add'[m], update'[m]);
        EntryHoldsGrows(reg, add.Keys, update.Keys, add'.Keys, update'.Keys, marks, marks, m, add'[m], update'[m]);
      } else {
        assert EntryHolds(reg, add.Keys, update.Keys, machineOwned, m, add[m], update[m]);
        EntryHoldsGrows(reg, add.Keys, update.Keys, add'.Keys, update'.Keys, machineOwned, marks, m, add'[m], update'[m]);
      }
    }
    forall m | m in marks
      ensures FlagHolds(reg, add'.Keys, update'.Keys, m)
    {
      if m in machineOwned {
        assert FlagHolds(reg, add.Keys, update.Keys, m);
      }
      FlagHoldsGrows(reg, add.Keys, update.Keys, add'.Keys, update'.Keys, m);
    }
  }

  /** How the fixed point ends: every waiting entity built, or a pass that built nothing. */
  datatype PendingOutcome =
    | Resolved(passes: nat)
    | Stalled(remaining: seq<string>)   // the source recurses on these until the call stack overflows

  /**
   * The input types registered so far: `typesDict.types[n].inputType` and
   * `typesDictForUpdate.types[n].inputType`, and the entities whose `state`
   * field has been flagged `stateMachine`.
   */
  class InputTypeRegistry {
    const reg: Registry
    var addInputs: map<string, InputObjectType>
    var updateInputs: map<string, InputObjectType>
    var machineOwned: set<string>

    /** The context `buildInputType` sees for entity `n` right now. */
    function Current(n: string): Ctx
      reads this
    {
      Ctx(reg, addInputs.Keys, updateInputs.Keys, n)
    }

    /**
     * Both dictionaries cover the same entities, and every input type held is
     * what building that entity against the current dictionaries gives.
     */
    ghost predicate Valid()
      reads this
    {
      Consistent(reg, addInputs, updateInputs, machineOwned)
    }

    constructor (reg: Registry)
      requires WellFormed(reg)
      ensures Valid() && this.reg == reg
      ensures addInputs == map[] && updateInputs == map[] && machineOwned == {}
    {
      this.reg := reg;
      addInputs := map[];
      updateInputs := map[];
      machineOwned := {};
    }

    /** One entity of a pass (src/index.js:323-336). */
    method BuildOne(n: string) returns (built: bool)
      requires Valid() && n in reg && n !in addInputs
      modifies this
      ensures Valid()
      ensures built <==> !SomeFieldBlocked(old(Current(n)))
      ensures built ==> addInputs == old(addInputs)[n := ShapesOf(old(Current(n))).add]
      ensures built ==> updateInputs == old(updateInputs)[n := ShapesOf(old(Current(n))).update]
      ensures !built ==> addInputs == old(addInputs) && updateInputs == old(updateInputs)
      ensures machineOwned == old(machineOwned) + (if MarksState(old(Current(n))) then {n} else {})
      ensures Keeps(old(addInputs), old(updateInputs), addInputs, updateInputs)
      ensures addInputs.Keys == old(addInputs.Keys) + (if built then {n} else {})
    {
      ghost var c := Current(n);
      ghost var marks := machineOwned + (if MarksState(c) then {n} else {});
      RecordFailure(reg, addInputs, updateInputs, machineOwned, n);
      if !SomeFieldBlocked(c) {
        RecordSuccess(reg, addInputs, updateInputs, machineOwned, n);
      }
      var r, marked := BuildInputType(reg, addInputs.Keys, updateInputs.Keys, n);
      if marked {
        machineOwned := machineOwned + {n};
      }
      assert machineOwned == marks;
      if r.Some? {
        InsertKeeps(addInputs, updateInputs, n, r.value.add, r.value.update);
        addInputs := addInputs[n := r.value.add];
        updateInputs := updateInputs[n := r.value.update];
      }
      built := r.Some?;
    }

    /**
     * One iteration of a pass (src/index.js:321-336): an entity already built
     * is skipped; otherwise it is built, and if its build returns null it is
     * kept for the next pass.
     */
    method Visit(n: string, still: seq<string>, progress: bool) returns (still': seq<string>, progress': bool)
      requires Valid() && n in reg
      modifies this
      ensures Valid()
      ensures Keeps(old(addInputs), old(updateInputs), addInputs, updateInputs)
      ensures old(machineOwned) <= machineOwned
      ensures n in old(addInputs) ==> still' == still && progress' == progress && addInputs == old(addInputs)
      ensures n !in old(addInputs) ==>
                || (still' == still && progress' && addInputs.Keys == old(addInputs.Keys) + {n})
                || (&& still' == still + [n] && progress' == progress
                    && addInputs == old(addInputs) && updateInputs == old(updateInputs)
                    && SomeFieldBlocked(Ctx(reg, addInputs.Keys, updateInputs.Keys, n)))
      ensures CyclesUnbuilt(reg, old(addInputs.Keys), addInputs.Keys)
    {
      still', progress' := still, progress;
      if n !in addInputs {
        ghost var keys, ukeys := addInputs.Keys, updateInputs.Keys;
        forall a, b | DependencyCycle(reg, a, b) && a !in keys && b !in keys
          ensures SomeFieldBlocked(Ctx(reg, keys, ukeys, a))
        {
          DependencyCycleBlocks(reg, keys, ukeys, a, b);
        }
        var built := BuildOne(n);
        if built {
          progress' := true;
        } else {
          still' := still + [n];
        }
      }
    }

    /**
     * One pass of `buildPendingInputTypes` (src/index.js:319-337): the waiting
     * entities not yet built are built in order; `still` lists those whose
     * build returned null, and `progress` says whether any was built.
     */
    method Pass(pending: seq<string>) returns (still: seq<string>, progress: bool)
      requires Valid() && forall n :: n in pending ==> n in reg
      modifies this
      ensures Valid()
      ensures old(addInputs.Keys) <= addInputs.Keys
      ensures !progress ==> addInputs.Keys == old(addInputs.Keys)
      ensures progress ==> old(addInputs.Keys) < addInputs.Keys
      ensures |still| + (if progress then 1 else 0) <= |pending|
      ensures forall n :: n in pending ==> n in addInputs || n in still
      ensures forall n :: n in still ==> n in pending && n !in old(addInputs)
      ensures !progress ==> forall n :: n in still ==> SomeFieldBlocked(Ctx(reg, addInputs.Keys, updateInputs.Keys, n))
      ensures Keeps(old(addInputs), old(updateInputs), addInputs, updateInputs)
      ensures forall n :: n in addInputs ==> n in old(addInputs) || n in pending
      ensures old(machineOwned) <= machineOwned
      ensures CyclesUnbuilt(reg, old(addInputs.Keys), addInputs.Keys)
    {
      still := [];
      progress := false;
      var j := 0;
      while j < |pending|
        invariant 0 <= j <= |pending|
        invariant Valid()
        invariant old(addInputs.Keys) <= addInputs.Keys
        invariant !progress ==> addInputs.Keys == old(addInputs.Keys)
        invariant progress ==> old(addInputs.Keys) < addInputs.Keys
        invariant |still| + (if progress then 1 else 0) <= j
        invariant forall i :: 0 <= i < j ==> pending[i] in addInputs || pending[i] in still
        invariant forall n :: n in still ==> n in pending && n !in old(addInputs)
        invariant !progress ==> forall n :: n in still ==> SomeFieldBlocked(Ctx(reg, addInputs.Keys, updateInputs.Keys, n))
        invariant Keeps(old(addInputs), old(updateInputs), addInputs, updateInputs)
        invariant forall n :: n in addInputs ==> n in old(addInputs) || n in pending
        invariant old(machineOwned) <= machineOwned
        invariant CyclesUnbuilt(reg, old(addInputs.Keys), addInputs.Keys)
      {
        ghost var add0, update0 := addInputs, updateInputs;
        still, progress := Visit(pending[j], still, progress);
        KeepsTrans(old(addInputs), old(updateInputs), add0, update0, addInputs, updateInputs);
        CyclesUnbuiltTrans(reg, old(addInputs.Keys), add0.Keys, addInputs.Keys);
        j := j + 1;
      }
    }

    /**
     * `buildPendingInputTypes` (src/index.js:318-344): passes over the waiting
     * entities, skipping those already built and retrying only those whose
     * build returned null, until a pass leaves none waiting. After a pass that
     * builds nothing the source calls itself again on the same entities, and
     * that unbounded recursion ends in a RangeError once the call stack is
     * exhausted; the model returns `Stalled` there.
     */
    method BuildPendingInputTypes(waiting: seq<string>) returns (outcome: PendingOutcome)
      requires Valid() && forall i :: 0 <= i < |waiting| ==> waiting[i] in reg
      modifies this
      ensures Valid()
      ensures Keeps(old(addInputs), old(updateInputs), addInputs, updateInputs)
      ensures forall n :: n in addInputs ==> n in old(addInputs) || n in waiting
      ensures old(machineOwned) <= machineOwned
      ensures outcome.Resolved? ==> (forall n :: n in waiting ==> n in addInputs) && outcome.passes <= |waiting| + 1
      ensures outcome.Stalled? ==> |outcome.remaining| > 0
      ensures outcome.Stalled? ==> forall n :: n in waiting ==> (n in addInputs <==> n !in outcome.remaining)
      ensures outcome.Stalled? ==> forall n :: n in outcome.remaining ==> n in reg && SomeFieldBlocked(Current(n))
      ensures forall a, b :: DependencyCycle(reg, a, b) && a in waiting && b in waiting && a !in old(addInputs) && b !in old(addInputs) ==>
                outcome.Stalled? && a in outcome.remaining && b in outcome.remaining
    {
      var pending := waiting;
      var passes := 0;
      while true
        invariant Valid()
        invariant forall n :: n in pending ==> n in waiting && n in reg
        invariant forall n :: n in waiting ==> n in addInputs || n in pending
        invariant Keeps(old(addInputs), old(updateInputs), addInputs, updateInputs)
        invariant forall n :: n in addInputs ==> n in old(addInputs) || n in waiting
        invariant old(machineOwned) <= machineOwned
        invariant passes + |pending| <= |waiting| + 1 && (|pending| == 0 ==> passes == 0)
        invariant CyclesUnbuilt(reg, old(addInputs.Keys), addInputs.Keys)
        decreases |reg.Keys - addInputs.Keys|
      {
        ghost var before := addInputs.Keys;
        ghost var add0, update0 := addInputs, updateInputs;
        var still, progress := Pass(pending);
        KeepsTrans(old(addInputs), old(updateInputs), add0, update0, addInputs, updateInputs);
        CyclesUnbuiltTrans(reg, old(addInputs.Keys), before, addInputs.Keys);
        passes := passes + 1;
        if |still| == 0 {
          return Resolved(passes);
        }
        if !progress {
          return Stalled(still);
        }
        FewerOutside(reg.Keys, before, addInputs.Keys);
        pending := still;
      }
    }
  }
}
