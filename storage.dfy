/**
 * `generateSchemaDefinition` (src/index.js:791-875): the Mongoose schema
 * derived from an object type's fields.
 */
module StorageSchema {
  import opened Wrappers
  import opened Schema
  import opened Errors

  /** The Mongoose schema kinds the derivation produces. */
  datatype StorageKind =
    | ObjectIdKind
    | StringKind(unique: bool)
    | NumberKind(unique: bool)
    | BooleanKind
    | DateKind
    | Nested(fields: map<string, StorageKind>)
    | ArrayOf(elem: StorageKind)

  /** What one field contributes: a schema path, or nothing. */
  datatype Slot = Write(key: string, kind: StorageKind) | NoWrite

  const SELF_EMBEDDING: string := "A type cannot have a field of its same type and embedded"
  /** The derivation recurses through embedded types without a visited set, so a cycle exhausts the stack. */
  const STACK_EXHAUSTED: string := "Maximum call stack size exceeded"
  /** Recursing into a wrapped list element calls `getFields` on a type that has none. */
  const NOT_AN_OBJECT_TYPE: string := "entryType.getFields is not a function"

  /**
   * The schema of the registered type `name`; `ancestors` are the types whose
   * derivation is in progress further up the recursion.
   */
  function Definition(reg: Registry, name: string, ancestors: set<string>): Result<map<string, StorageKind>, Thrown>
    requires WellFormed(reg) && name in reg && name !in ancestors
    decreases |reg.Keys - ancestors|, 0, 0
  {
    FewerUnvisited(reg.Keys, ancestors, name);
    FieldsDefinition(reg, name, ancestors + {name}, 0, map[])
  }

  function FieldsDefinition(reg: Registry, self: string, visiting: set<string>, i: nat,
                            acc: map<string, StorageKind>): Result<map<string, StorageKind>, Thrown>
    requires WellFormed(reg) && self in reg && self in visiting
    requires i <= |reg[self].gqltype.fields|
    decreases |reg.Keys - visiting|, 2, |reg[self].gqltype.fields| - i
  {
    var fs := reg[self].gqltype.fields;
    if i == |fs| then Ok(acc)
    else
      match FieldSlot(reg, self, visiting, fs[i])
      case Err(e) => Err(e)
      case Ok(Write(k, kind)) => FieldsDefinition(reg, self, visiting, i + 1, acc[k := kind])
      case Ok(NoWrite) => FieldsDefinition(reg, self, visiting, i + 1, acc)
  }

  /** The schema of an embedded type: refused for the type itself, a stack overflow on a longer cycle. */
  function EmbeddedDefinition(reg: Registry, self: string, visiting: set<string>, entry: GqlType)
    : Result<map<string, StorageKind>, Thrown>
    requires WellFormed(reg) && self in reg && self in visiting
    requires Referenced(entry) <= reg.Keys
    decreases |reg.Keys - visiting|, 0, 1
  {
    if entry == Object(self) then Err(Unknown(SELF_EMBEDDING))
    else if !entry.Object? then Err(Unknown(NOT_AN_OBJECT_TYPE))
    else if entry.typeName in visiting then Err(Unknown(STACK_EXHAUSTED))
    else Definition(reg, entry.typeName, visiting)
  }

  function FieldSlot(reg: Registry, self: string, visiting: set<string>, f: Field): Result<Slot, Thrown>
    requires WellFormed(reg) && self in reg && self in visiting
    requires f in reg[self].gqltype.fields
    decreases |reg.Keys - visiting|, 1, 0
  {
    var t := f.ty;
    if t == ID || t == NonNull(ID) then Ok(Write(f.name, ObjectIdKind))
    else if t == STRING || t == NonNull(STRING) then Ok(Write(f.name, StringKind(f.unique)))
    else if t.Enum? || (t.NonNull? && t.inner.Enum?) then Ok(Write(f.name, StringKind(f.unique)))
    else if t == INT || t == NonNull(INT) then Ok(Write(f.name, NumberKind(f.unique)))
    else if t == FLOAT || t == NonNull(FLOAT) then Ok(Write(f.name, NumberKind(f.unique)))
    else if t == BOOLEAN || t == NonNull(BOOLEAN) then Ok(Write(f.name, BooleanKind))
    else if IsObjectLike(t) then
      if f.relation.None? then Ok(NoWrite)
      else if !f.relation.value.embedded then Ok(Write(f.relation.value.connectionField, ObjectIdKind))
      else
        match EmbeddedDefinition(reg, self, visiting, Unwrap(t))
        case Err(e) => Err(e)
        case Ok(sub) => Ok(Write(f.name, Nested(sub)))
    else if t.List? then
      if f.relation.Some? then
        if f.relation.value.embedded then
          match EmbeddedDefinition(reg, self, visiting, t.elem)
          case Err(e) => Err(e)
          case Ok(sub) => Ok(Write(f.name, ArrayOf(Nested(sub))))
        else Ok(NoWrite)
      else if t.elem == STRING || t.elem.Enum? then Ok(Write(f.name, ArrayOf(StringKind(false))))
      else if t.elem == BOOLEAN then Ok(Write(f.name, ArrayOf(BooleanKind)))
      else if t.elem == INT || t.elem == FLOAT then Ok(Write(f.name, ArrayOf(NumberKind(false))))
      else if TypeName(t.elem).Some? && IsIsoDate(TypeName(t.elem).value) then Ok(Write(f.name, ArrayOf(DateKind)))
      else Ok(NoWrite)
    else if IsIsoDateType(t) then Ok(Write(f.name, DateKind))
    else Ok(NoWrite)
  }

  /** The derivation of a registered type, started at the top. */
  function GenerateSchemaDefinition(reg: Registry, name: string): Result<map<string, StorageKind>, Thrown>
    requires WellFormed(reg) && name in reg
  {
    Definition(reg, name, {})
  }

  lemma GenerateUnfolds(reg: Registry, name: string)
    requires WellFormed(reg) && name in reg
    ensures GenerateSchemaDefinition(reg, name) == FieldsDefinition(reg, name, {name}, 0, map[])
  {
    assert {} + {name} == {name};
  }

  /** A field holding its own type as an embedded relation. */
  predicate EmbedsItself(self: string, f: Field) {
    && f.relation.Some? && f.relation.value.embedded
    && ((IsObjectLike(f.ty) && ObjectName(f.ty) == self) || f.ty == List(Object(self)))
  }

  /** The field's own contribution fails when it embeds its own type. */
  lemma SlotOfSelfEmbedding(reg: Registry, self: string, visiting: set<string>, f: Field)
    requires WellFormed(reg) && self in reg && self in visiting
    requires f in reg[self].gqltype.fields
    requires EmbedsItself(self, f)
    ensures FieldSlot(reg, self, visiting, f) == Err(Unknown(SELF_EMBEDDING))
  {
  }

  lemma {:induction false} FieldsRejectSelfEmbedding(reg: Registry, self: string, visiting: set<string>, i: nat,
                                                     acc: map<string, StorageKind>, k: nat)
    requires WellFormed(reg) && self in reg && self in visiting
    requires i <= k < |reg[self].gqltype.fields|
    requires EmbedsItself(self, reg[self].gqltype.fields[k])
    ensures FieldsDefinition(reg, self, visiting, i, acc).Err?
    decreases k - i
  {
    var fs := reg[self].gqltype.fields;
    if i == k {
      SlotOfSelfEmbedding(reg, self, visiting, fs[k]);
    } else {
      match FieldSlot(reg, self, visiting, fs[i])
      case Err(_) =>
      case Ok(Write(key, kind)) => FieldsRejectSelfEmbedding(reg, self, visiting, i + 1, acc[key := kind], k);
      case Ok(NoWrite) => FieldsRejectSelfEmbedding(reg, self, visiting, i + 1, acc, k);
    }
  }

  /** A type with a field embedding its own type has no storage schema (src/index.js:841-845, 852-856). */
  lemma SelfEmbeddingRejected(reg: Registry, name: string, k: nat)
    requires WellFormed(reg) && name in reg
    requires k < |reg[name].gqltype.fields| && EmbedsItself(name, reg[name].gqltype.fields[k])
    ensures GenerateSchemaDefinition(reg, name).Err?
  {
    GenerateUnfolds(reg, name);
    FieldsRejectSelfEmbedding(reg, name, {name}, 0, map[], k);
  }

  /** The key a field's slot writes, when it writes one, is its `WrittenKey`. */
  lemma SlotKey(reg: Registry, self: string, visiting: set<string>, f: Field)
    requires WellFormed(reg) && self in reg && self in visiting
    requires f in reg[self].gqltype.fields
    ensures FieldSlot(reg, self, visiting, f).Ok? && FieldSlot(reg, self, visiting, f).value.Write? ==>
              FieldSlot(reg, self, visiting, f).value.key == WrittenKey(f)
  {
  }

  lemma {:induction false} FieldsKeys(reg: Registry, self: string, visiting: set<string>, i: nat,
                                      acc: map<string, StorageKind>)
    requires WellFormed(reg) && self in reg && self in visiting
    requires i <= |reg[self].gqltype.fields|
    requires FieldsDefinition(reg, self, visiting, i, acc).Ok?
    ensures forall key :: key in FieldsDefinition(reg, self, visiting, i, acc).value ==>
              key in acc || exists j :: i <= j < |reg[self].gqltype.fields| && WrittenKey(reg[self].gqltype.fields[j]) == key
    decreases |reg[self].gqltype.fields| - i
  {
    var fs := reg[self].gqltype.fields;
    if i < |fs| {
      SlotKey(reg, self, visiting, fs[i]);
      match FieldSlot(reg, self, visiting, fs[i])
      case Ok(Write(key, kind)) => FieldsKeys(reg, self, visiting, i + 1, acc[key := kind]);
      case Ok(NoWrite) => FieldsKeys(reg, self, visiting, i + 1, acc);
    }
  }

  lemma {:induction false} FieldsLastWrite(reg: Registry, self: string, visiting: set<string>, i: nat,
                                           acc: map<string, StorageKind>, k: nat)
    requires WellFormed(reg) && self in reg && self in visiting
    requires i <= k < |reg[self].gqltype.fields|
    requires DistinctKeys(reg[self].gqltype.fields)
    requires FieldsDefinition(reg, self, visiting, i, acc).Ok?
    ensures FieldSlot(reg, self, visiting, reg[self].gqltype.fields[k]).Ok?
    ensures FieldSlot(reg, self, visiting, reg[self].gqltype.fields[k]).value.Write? ==>
              var w := FieldSlot(reg, self, visiting, reg[self].gqltype.fields[k]).value;
              w.key in FieldsDefinition(reg, self, visiting, i, acc).value &&
              FieldsDefinition(reg, self, visiting, i, acc).value[w.key] == w.kind
    decreases |reg[self].gqltype.fields| - i
  {
    var fs := reg[self].gqltype.fields;
    SlotKey(reg, self, visiting, fs[i]);
    match FieldSlot(reg, self, visiting, fs[i])
    case Ok(Write(key, kind)) =>
      if i == k {
        FieldsKeep(reg, self, visiting, i + 1, acc[key := kind], key);
      } else {
        FieldsLastWrite(reg, self, visiting, i + 1, acc[key := kind], k);
      }
    case Ok(NoWrite) =>
      if i < k {
        FieldsLastWrite(reg, self, visiting, i + 1, acc, k);
      }
  }

  /** A key no later field writes keeps the value it had. */
  lemma {:induction false} FieldsKeep(reg: Registry, self: string, visiting: set<string>, i: nat,
                                      acc: map<string, StorageKind>, key: string)
    requires WellFormed(reg) && self in reg && self in visiting
    requires i <= |reg[self].gqltype.fields|
    requires key in acc
    requires forall j :: i <= j < |reg[self].gqltype.fields| ==> WrittenKey(reg[self].gqltype.fields[j]) != key
    requires FieldsDefinition(reg, self, visiting, i, acc).Ok?
    ensures key in FieldsDefinition(reg, self, visiting, i, acc).value
    ensures FieldsDefinition(reg, self, visiting, i, acc).value[key] == acc[key]
    decreases |reg[self].gqltype.fields| - i
  {
    var fs := reg[self].gqltype.fields;
    if i < |fs| {
      SlotKey(reg, self, visiting, fs[i]);
      match FieldSlot(reg, self, visiting, fs[i])
      case Ok(Write(k, kind)) => FieldsKeep(reg, self, visiting, i + 1, acc[k := kind], key);
      case Ok(NoWrite) => FieldsKeep(reg, self, visiting, i + 1, acc, key);
    }
  }

  /** A key that only fields writing nothing could write stays absent. */
  lemma {:induction false} FieldsAbsent(reg: Registry, self: string, visiting: set<string>, i: nat,
                                        acc: map<string, StorageKind>, key: string)
    requires WellFormed(reg) && self in reg && self in visiting
    requires i <= |reg[self].gqltype.fields|
    requires key !in acc
    requires forall j :: i <= j < |reg[self].gqltype.fields| && WrittenKey(reg[self].gqltype.fields[j]) == key ==>
               FieldSlot(reg, self, visiting, reg[self].gqltype.fields[j]) == Ok(NoWrite)
    requires FieldsDefinition(reg, self, visiting, i, acc).Ok?
    ensures key !in FieldsDefinition(reg, self, visiting, i, acc).value
    decreases |reg[self].gqltype.fields| - i
  {
    var fs := reg[self].gqltype.fields;
    if i < |fs| {
      SlotKey(reg, self, visiting, fs[i]);
      match FieldSlot(reg, self, visiting, fs[i])
      case Ok(Write(k, kind)) => FieldsAbsent(reg, self, visiting, i + 1, acc[k := kind], key);
      case Ok(NoWrite) => FieldsAbsent(reg, self, visiting, i + 1, acc, key);
    }
  }

  /**
   * The set of types in progress only decides whether the derivation fails:
   * when it succeeds with more of them, it gives the same schema with fewer.
   * So the schema nested for an embedded type is that type's own derivation.
   */
  lemma DefinitionShrink(reg: Registry, name: string, fewer: set<string>, more: set<string>)
    requires WellFormed(reg) && name in reg && fewer <= more && name !in more
    requires Definition(reg, name, more).Ok?
    ensures Definition(reg, name, fewer) == Definition(reg, name, more)
    decreases |reg.Keys - more|, 0, 0
  {
    FewerUnvisited(reg.Keys, more, name);
    FieldsShrink(reg, name, fewer + {name}, more + {name}, 0, map[]);
  }

  lemma FieldsShrink(reg: Registry, self: string, fewer: set<string>, more: set<string>, i: nat,
                     acc: map<string, StorageKind>)
    requires WellFormed(reg) && self in reg && self in fewer && fewer <= more
    requires i <= |reg[self].gqltype.fields|
    requires FieldsDefinition(reg, self, more, i, acc).Ok?
    ensures FieldsDefinition(reg, self, fewer, i, acc) == FieldsDefinition(reg, self, more, i, acc)
    decreases |reg.Keys - more|, 2, |reg[self].gqltype.fields| - i
  {
    var fs := reg[self].gqltype.fields;
    if i < |fs| {
      SlotShrink(reg, self, fewer, more, fs[i]);
      match FieldSlot(reg, self, more, fs[i])
      case Ok(Write(k, kind)) => FieldsShrink(reg, self, fewer, more, i + 1, acc[k := kind]);
      case Ok(NoWrite) => FieldsShrink(reg, self, fewer, more, i + 1, acc);
    }
  }

  lemma SlotShrink(reg: Registry, self: string, fewer: set<string>, more: set<string>, f: Field)
    requires WellFormed(reg) && self in reg && self in fewer && fewer <= more
    requires f in reg[self].gqltype.fields
    requires FieldSlot(reg, self, more, f).Ok?
    ensures FieldSlot(reg, self, fewer, f) == FieldSlot(reg, self, more, f)
    decreases |reg.Keys - more|, 1, 0
  {
    if IsObjectLike(f.ty) && f.relation.Some? && f.relation.value.embedded {
      EmbeddedShrink(reg, self, fewer, more, Unwrap(f.ty));
    } else if f.ty.List? && f.relation.Some? && f.relation.value.embedded {
      EmbeddedShrink(reg, self, fewer, more, f.ty.elem);
    }
  }

  lemma EmbeddedShrink(reg: Registry, self: string, fewer: set<string>, more: set<string>, entry: GqlType)
    requires WellFormed(reg) && self in reg && self in fewer && fewer <= more
    requires Referenced(entry) <= reg.Keys
    requires EmbeddedDefinition(reg, self, more, entry).Ok?
    ensures EmbeddedDefinition(reg, self, fewer, entry) == EmbeddedDefinition(reg, self, more, entry)
    decreases |reg.Keys - more|, 0, 1
  {
    DefinitionShrink(reg, entry.typeName, fewer, more);
  }

  /**
   * Every key of a derived schema is a field's name or, for a referenced
   * relation, its connection field (src/index.js:796-872).
   */
  lemma DefinitionKeysFromFields(reg: Registry, name: string)
    requires WellFormed(reg) && name in reg
    requires GenerateSchemaDefinition(reg, name).Ok?
    ensures forall key :: key in GenerateSchemaDefinition(reg, name).value ==>
              exists j :: 0 <= j < |reg[name].gqltype.fields| && WrittenKey(reg[name].gqltype.fields[j]) == key
  {
    GenerateUnfolds(reg, name);
    FieldsKeys(reg, name, {name}, 0, map[]);
  }

  /**
   * The storage kind of each field of a derived schema when no two fields
   * share a key, including the fields that write nothing (src/index.js:797-871).
   */
  lemma DefinitionFieldKinds(reg: Registry, name: string, k: nat)
    requires WellFormed(reg) && name in reg
    requires k < |reg[name].gqltype.fields| && DistinctKeys(reg[name].gqltype.fields)
    requires GenerateSchemaDefinition(reg, name).Ok?
    ensures var f := reg[name].gqltype.fields[k];
            var m := GenerateSchemaDefinition(reg, name).value;
            && ((f.ty == ID || f.ty == NonNull(ID)) ==> f.name in m && m[f.name] == ObjectIdKind)
            && ((f.ty == STRING || f.ty == NonNull(STRING) || Unwrap(f.ty).Enum?) ==>
                  f.name in m && m[f.name] == StringKind(f.unique))
            && ((Unwrap(f.ty) == INT || Unwrap(f.ty) == FLOAT) ==> f.name in m && m[f.name] == NumberKind(f.unique))
            && (Unwrap(f.ty) == BOOLEAN ==> f.name in m && m[f.name] == BooleanKind)
            && ((Unwrap(f.ty).Scalar? && IsIsoDate(Unwrap(f.ty).name)) ==> f.name in m && m[f.name] == DateKind)
            && ((IsObjectLike(f.ty) && f.relation.Some? && !f.relation.value.embedded) ==>
                  f.relation.value.connectionField in m && m[f.relation.value.connectionField] == ObjectIdKind)
            && ((IsObjectLike(f.ty) && f.relation.Some? && f.relation.value.embedded) ==>
                  && ObjectName(f.ty) in reg && GenerateSchemaDefinition(reg, ObjectName(f.ty)).Ok?
                  && f.name in m && m[f.name] == Nested(GenerateSchemaDefinition(reg, ObjectName(f.ty)).value))
            && ((f.ty.List? && f.relation.Some? && f.relation.value.embedded) ==>
                  && f.ty.elem.Object? && f.ty.elem.typeName in reg && GenerateSchemaDefinition(reg, f.ty.elem.typeName).Ok?
                  && f.name in m && m[f.name] == ArrayOf(Nested(GenerateSchemaDefinition(reg, f.ty.elem.typeName).value)))
            && ((f.ty.List? && f.relation.None? && (f.ty.elem == STRING || f.ty.elem.Enum?)) ==>
                  f.name in m && m[f.name] == ArrayOf(StringKind(false)))
            && ((f.ty.List? && f.relation.None? && f.ty.elem == BOOLEAN) ==> f.name in m && m[f.name] == ArrayOf(BooleanKind))
            && ((f.ty.List? && f.relation.None? && (f.ty.elem == INT || f.ty.elem == FLOAT)) ==>
                  f.name in m && m[f.name] == ArrayOf(NumberKind(false)))
            && ((f.ty.List? && f.relation.None? && f.ty.elem.Scalar? && IsIsoDate(f.ty.elem.name)) ==>
                  f.name in m && m[f.name] == ArrayOf(DateKind))
            && ((IsObjectLike(f.ty) && f.relation.None?) ==> f.name !in m)
            && ((f.ty.List? && f.relation.Some? && !f.relation.value.embedded) ==> f.name !in m)
  {
    var fs := reg[name].gqltype.fields;
    var f := fs[k];
    GenerateUnfolds(reg, name);
    FieldsLastWrite(reg, name, {name}, 0, map[], k);
    assert Referenced(f.ty) <= reg.Keys;
    if IsObjectLike(f.ty) && f.relation.Some? && f.relation.value.embedded {
      assert EmbeddedDefinition(reg, name, {name}, Unwrap(f.ty)).Ok?;
      DefinitionShrink(reg, ObjectName(f.ty), {}, {name});
    } else if f.ty.List? && f.relation.Some? && f.relation.value.embedded {
      assert EmbeddedDefinition(reg, name, {name}, f.ty.elem).Ok?;
      DefinitionShrink(reg, f.ty.elem.typeName, {}, {name});
    } else if (IsObjectLike(f.ty) && f.relation.None?) || (f.ty.List? && f.relation.Some?) {
      assert FieldSlot(reg, name, {name}, f) == Ok(NoWrite);
      assert forall j :: 0 <= j < |fs| && WrittenKey(fs[j]) == f.name ==> j == k;
      FieldsAbsent(reg, name, {name}, 0, map[], f.name);
    }
  }
}
