/**
 * The metadata the core is driven by: the GraphQL type universe, field
 * extensions (`relation`, `readOnly`, `unique`, `validations`), and the
 * registry of connected entities (`typesDict.types`).
 */
module Schema {
  import opened Wrappers

  /** The GraphQL types a field can have; `Object` names an object type of the registry. */
  datatype GqlType =
    | Scalar(name: string)
    | Enum(name: string)
    | Object(typeName: string)
    | List(elem: GqlType)
    | NonNull(inner: GqlType)

  const ID: GqlType := Scalar("ID")
  const STRING: GqlType := Scalar("String")
  const INT: GqlType := Scalar("Int")
  const FLOAT: GqlType := Scalar("Float")
  const BOOLEAN: GqlType := Scalar("Boolean")

  /** `extensions.relation`: inline sub-document or foreign-key reference. */
  datatype Relation = Relation(embedded: bool, connectionField: string)

  /** The operation kinds validators are registered under. */
  datatype Operation = CREATE | UPDATE | DELETE

  /** A registered validator, known only by identity; what it checks is abstract. */
  datatype Validator = Validator(id: nat)

  datatype Field = Field(
    name: string,
    ty: GqlType,
    relation: Option<Relation>,
    readOnly: bool,
    unique: bool,
    validations: map<Operation, seq<Validator>>)

  /** An enum value of a state machine: its GraphQL name and its internal value. */
  datatype StateValue = StateValue(name: string, value: string)

  datatype Action = Action(from: StateValue, to: StateValue)

  datatype StateMachine = StateMachine(initialState: StateValue, actions: map<string, Action>)

  /** A GraphQL object type: its fields in declaration order and its entity-level validators. */
  datatype ObjectType = ObjectType(
    name: string,
    fields: seq<Field>,
    validations: map<Operation, seq<Validator>>)

  /** A `typesDict.types` entry: the object type, its collection and its optional state machine. */
  datatype Entry = Entry(gqltype: ObjectType, collectionName: string, stateMachine: Option<StateMachine>)

  type Registry = map<string, Entry>

  /** A scalar or enum type, possibly wrapped once in NonNull. */
  predicate IsScalarLike(t: GqlType) {
    t.Scalar? || t.Enum? || (t.NonNull? && (t.inner.Scalar? || t.inner.Enum?))
  }

  /** An object type, possibly wrapped once in NonNull. */
  predicate IsObjectLike(t: GqlType) {
    t.Object? || (t.NonNull? && t.inner.Object?)
  }

  function Unwrap(t: GqlType): GqlType {
    if t.NonNull? then t.inner else t
  }

  function ObjectName(t: GqlType): string
    requires IsObjectLike(t)
  {
    Unwrap(t).typeName
  }

  /** `type.name`: defined for named types, undefined for List and NonNull wrappers. */
  function TypeName(t: GqlType): Option<string> {
    match t
    case Scalar(n) => Some(n)
    case Enum(n) => Some(n)
    case Object(n) => Some(n)
    case _ => None
  }

  /** `isGraphQLisoDate` (src/index.js:162). */
  predicate IsIsoDate(name: string) {
    name == "DateTime" || name == "Date" || name == "Time"
  }

  /** `NonNull ? type.ofType.name : type.name` is an iso date type name. */
  predicate IsIsoDateType(t: GqlType) {
    var n := TypeName(Unwrap(t));
    n.Some? && IsIsoDate(n.value)
  }

  /** The validators registered for an operation: `validations[operation]`, or none. */
  function ValidatorsFor(m: map<Operation, seq<Validator>>, op: Operation): seq<Validator> {
    if op in m then m[op] else []
  }

  /** The object type names a type mentions at any depth. */
  function Referenced(t: GqlType): set<string> {
    match t
    case Object(n) => {n}
    case List(e) => Referenced(e)
    case NonNull(i) => Referenced(i)
    case _ => {}
  }

  /** Field names of one object type are distinct (they are the keys of `getFields()`). */
  predicate UniqueNames(fs: seq<Field>) {
    forall i, j :: 0 <= i < j < |fs| ==> fs[i].name != fs[j].name
  }

  function FieldNamed(fs: seq<Field>, name: string): (r: Option<Field>)
    ensures r.Some? ==> r.value in fs && r.value.name == name
    ensures r.None? ==> forall i :: 0 <= i < |fs| ==> fs[i].name != name
  {
    if |fs| == 0 then None
    else if fs[0].name == name then Some(fs[0])
    else FieldNamed(fs[1..], name)
  }

  /** With distinct names, a field's own name finds that very field. */
  lemma {:induction false} FieldNamedFinds(fs: seq<Field>, i: nat)
    requires UniqueNames(fs) && i < |fs|
    ensures FieldNamed(fs, fs[i].name) == Some(fs[i])
  {
    if i > 0 {
      assert fs[0].name != fs[i].name;
      assert UniqueNames(fs[1..]) by {
        forall a, b | 0 <= a < b < |fs[1..]| ensures fs[1..][a].name != fs[1..][b].name {
          assert fs[1..][a] == fs[a + 1] && fs[1..][b] == fs[b + 1];
        }
      }
      FieldNamedFinds(fs[1..], i - 1);
    }
  }

  /** The document key a field is written under: its connection field for a referenced object, else its name. */
  function WrittenKey(f: Field): string {
    if IsObjectLike(f.ty) && f.relation.Some? && !f.relation.value.embedded
    then f.relation.value.connectionField else f.name
  }

  /** No two fields of a type are written under the same key. */
  predicate DistinctKeys(fs: seq<Field>) {
    forall i, j :: 0 <= i < j < |fs| ==> WrittenKey(fs[i]) != WrittenKey(fs[j])
  }

  /** Each entry is keyed by its type's name, and every type a field mentions is registered. */
  predicate WellFormed(reg: Registry) {
    forall n :: n in reg ==>
      && reg[n].gqltype.name == n
      && UniqueNames(reg[n].gqltype.fields)
      && forall i :: 0 <= i < |reg[n].gqltype.fields| ==> Referenced(reg[n].gqltype.fields[i].ty) <= reg.Keys
  }

  /** Adding a key to a set of visited keys leaves fewer unvisited. */
  lemma FewerUnvisited(keys: set<string>, ancestors: set<string>, n: string)
    requires n in keys && n !in ancestors
    ensures |keys - (ancestors + {n})| < |keys - ancestors|
  {
    assert keys - (ancestors + {n}) == (keys - ancestors) - {n};
  }
}
