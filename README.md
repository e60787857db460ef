# simfinity.js core in Dafny

simfinity.js builds a GraphQL API over MongoDB from GraphQL object types
whose fields carry extensions: a `relation` (embedded, or referenced
through a `connectionField`), `readOnly`, `unique` and per-operation
`validations`. This project models the metadata-driven core of
`src/index.js` and proves what it promises:

- **Storage schema** (`StorageSchema`, storage.dfy). `generateSchemaDefinition`
  maps each field to a Mongoose storage kind and refuses a type that embeds
  itself.
- **Input types** (`InputTypes`, inputs.dfy).
  - `buildInputType` applies the per-field add/update rules and returns
    null while an embedded dependency has no input type yet.
  - `graphQLListInputType` and `createOneToManyInputType` build the list
    and collection-delta inputs.
  - `buildPendingInputTypes` retries the waiting entities until none is
    left. It is a class (`InputTypeRegistry`) whose fields are the two
    type dictionaries.
- **Materialisation** (`Materialize`, materialize.dfy). `materializeModel`
  turns mutation arguments into the document to store and the collection
  deltas to apply. It runs the field and entity validators, which are
  abstract checks that may throw.
- **Collection deltas** (`Mutations`, mutations.dfy).
  `iterateonCollectionFields` and `executeItemFunction` turn each delta into
  nested save/update mutations, in order, stopping at the first failure.
  DELETE does nothing.
- **Update merge** (`Updates`, updates.dfy). The merge step of
  `onUpdateSubject` handles embedded fields and `$unset`.
- **Resolvers** (`Resolvers`, resolvers.dfy). `onUpdateSubject`,
  `onStateChanged` (the transition guard) and `onSaveObject` (initial-state
  stamping) work over a `Collection` class, a map from id to document.
- **Query compiler**:
  - `buildMatchesClause` (`Matching`, matching.dfy), with a small model of
    what each produced condition means;
  - `buildQueryTerms` (`Terms`, terms.dfy), which walks dotted paths across
    relations;
  - `buildQuery` (`Query`, query.dfy), which assembles the aggregation
    pipeline.
- **Support modules**:
  - `Errors` (errors.dfy): `buildErrorFormatter`;
  - `Values` (values.dfy): JavaScript values, truthiness and `isEmpty`;
  - `Schema` (schema.dfy): the GraphQL type universe and the registry;
  - `Ordered` (ordered.dfy): JavaScript objects as insertion-ordered maps;
  - `Wrappers` (wrappers.dfy): Option and Result.

`new mongoose.Types.ObjectId(v)` and `new Date(v)` are the uninterpreted
constructors `ObjectId(v)` and `DateOf(v)`. A validator is a `Call` that a
`Verdicts` function answers with nothing or with the error it throws. A
nested mutation is an `ItemCall` that an `Outcomes` function answers the
same way. The query engine's ordering and regular-expression matcher are
parameters of `Matching.Satisfies`.

Each imperative loop of the source is a method proved equal to a
recursive specification function. The specification function's properties
are proved as lemmas.

Where the documentation and the code disagree:

- The documentation says an empty query falls back to an unconditional
  `find({})`. `Query.PipelineNeverEmpty` proves that a non-count pipeline
  always ends with `$limit` and `$skip`. The `find({})` branch at
  src/index.js:1243-1244 is therefore never taken.
- When a pass makes no progress, `buildPendingInputTypes` calls itself
  again with the same waiting set (src/index.js:341-343). That recursion is
  unbounded and not a tail call the engine removes, so it ends in a
  `RangeError` once the call stack is exhausted. The model ends such a run
  as `Stalled`, which stands for that stack overflow, with the entities
  that can never be built. A dependency cycle is one such case: two
  entities that each embed the other, or that each hold a list of the other
  (a many-to-many relation, referenced or embedded), or one entity that
  embeds itself. `InputTypes.DependencyCycleBlocks` shows that the
  entities of a cycle block each other, and
  `InputTypes.InputTypeRegistry.BuildPendingInputTypes` that a run over them
  ends `Stalled` with both left.
- A list of `NonNull` elements or a nested list never gets an input type,
  so its entity blocks whatever input types exist (`InputTypes.WrappedListAlwaysBlocks`).
- The two source defects listed under "Findings" are each modelled twice: as
  written, with a lemma exhibiting the defect, and corrected. The resolvers
  (`Resolvers`, through `Updates.Merge`) and the query pipeline (`Terms`,
  `Query`, through clauses keyed by path) are built on the corrected
  halves, so their rows describe the corrected behaviour.
- A dotted filter path whose last segment is an enum adds no condition. The
  source only handles scalar leaves (src/index.js:1016).

## Model

| member | source | states |
|---|---|---|
| Errors.Surface | src/index.js:68-73 | A `SimfinityError` is surfaced unchanged; any other throw becomes `INTERNAL_SERVER_ERROR` with no status, the thrown message, and that message again standing for the thrown cause |
| Errors.FormatError | src/index.js:66-82 | Without a callback the surfaced error; with one, the callback's answer when it gives one and the surfaced error when it gives nothing |
| Errors.FormatErrorKeepsMessage | src/index.js:66-82 | For every callback that gives nothing, and without a callback, the formatted error keeps the thrown message; its code is the error's own or `INTERNAL_SERVER_ERROR`, and an unknown throw has no status |
| Values.IsEmpty | src/index.js:346 | Empty exactly for `undefined`, `null` and `""`: `false` and `0` are values |
| Values.CoerceDate | src/index.js:948 | A truthy value becomes a Date and a falsy one is left as it is |
| Values.CoerceDateValue | src/index.js:945-949 | An array is coerced element by element, keeping its length; any other value is coerced itself |
| Values.CoerceDateValueIdempotent | src/index.js:945-949 | Coercing a filter value twice gives what coercing it once gives |
| Values.Split | src/index.js:1014 | `split('.')` gives at least one part, no part contains the separator, and joining the parts with it gives back the path |
| Values.IndexMap | src/index.js:498 | Spreading an array gives exactly the decimal indices as keys, each holding its item |
| Schema.FieldNamed | src/index.js:995 | `getFields()[name]` finds a field of the type with that name, and finds nothing only when the type has no such field |
| Schema.FieldNamedFinds | src/index.js:995 | With distinct field names, looking up a field's name finds that field |
| StorageSchema.SlotOfSelfEmbedding | src/index.js:841-845 | A field embedding its own type throws the self-embedding error |
| StorageSchema.FieldsRejectSelfEmbedding | src/index.js:796-872 | The field loop throws when any field still to come embeds the type itself |
| StorageSchema.SelfEmbeddingRejected | src/index.js:852-856 | A type with a field that embeds it, alone or as a list, has no storage schema |
| StorageSchema.SlotKey | src/index.js:797-871 | A field writes its schema path under its name, or under its `connectionField` for a referenced object |
| StorageSchema.FieldsKeys | src/index.js:796-872 | Every key of the result was already there or is the written key of a field still to come |
| StorageSchema.FieldsLastWrite | src/index.js:796-872 | With distinct written keys, the kind each field writes is the kind the schema holds under its key |
| StorageSchema.FieldsKeep | src/index.js:796-872 | A key that no later field writes keeps its kind |
| StorageSchema.DefinitionKeysFromFields | src/index.js:791-875 | Every key of a derived schema is the written key of one of the type's fields |
| StorageSchema.DefinitionFieldKinds | src/index.js:797-871 | The kind of each field: ID gives ObjectId; String and enums give String, with `unique`; Int and Float give Number, with `unique`; Boolean gives Boolean; date scalars give Date; a referenced object gives ObjectId under its `connectionField`. An embedded object or embedded list gives the nested schema of its type, alone or in an array. A list without a relation gives `[String]` for strings and enums, `[Boolean]`, `[Number]` for Int and Float, and `[Date]` for date scalars. An object without a relation and a referenced list write nothing under the field's name |
| StorageSchema.FieldsAbsent | src/index.js:796-872 | A key that only fields writing nothing could write stays absent |
| StorageSchema.DefinitionShrink | src/index.js:841-856 | The types in progress only decide whether the derivation throws: a schema that derives with more of them derives the same with fewer, so the schema nested for an embedded type is that type's own |
| InputTypes.CreateOneToManyInputType | src/index.js:164-172 | Named `OneToMany<prefix><field>`, with exactly the fields `added`, `updated` and `deleted`: lists of the add type, of the update type and of ID |
| InputTypes.GraphQLListInputType | src/index.js:174-192 | Null for an entity element without an input type. An embedded entity list gives a list of the input type; a referenced one gives the one-to-many delta type. A scalar or enum list keeps its element type. Any other element, such as a nested list or a NonNull element, gives null |
| InputTypes.CollectAt | src/index.js:260-266 | A field is in the dictionary of a shape exactly when its rule produced an entry for that shape, and holds that entry |
| InputTypes.CollectSplit | src/index.js:283-310 | The loop's dictionary plus one delta per self-referencing collection is the whole shape |
| InputTypes.FieldArgs | src/index.js:206-269 | One iteration returns null exactly when the field blocks, flags `stateMachine` exactly for a machine-owned `state`, defers exactly a self collection, and yields the rule's add and update entries |
| InputTypes.AttachSelfCollections | src/index.js:283-310 | The add and update fields are the loop's fields plus a one-to-many delta, with prefix `A` or `U`, for each self collection |
| InputTypes.ReturnsAtBlocked | src/index.js:237-238 | Returning at the first blocked field means the type has a blocked field; the state flag is set exactly when a machine-owned `state` came before it |
| InputTypes.CompletesUnblocked | src/index.js:202-271 | A loop that meets no blocked field means the type has none, and the state flag is set exactly when the type has a machine-owned `state` |
| InputTypes.BuildInputType | src/index.js:194-313 | The result is null exactly when some field blocks; otherwise it holds both shapes of the type; `stateMachine` is flagged exactly when a machine-owned `state` is reached |
| InputTypes.ExcludedFieldsOmitted | src/index.js:206-210 | A read-only field, and `state` on a type with a state machine, appear in neither shape |
| InputTypes.IdNeverInAddShape | src/index.js:216 | A scalar field named `id` is not in the add shape |
| InputTypes.ScalarFieldShapes | src/index.js:211-223 | An editable scalar or enum keeps its type in the add shape (except `id`). In the update shape a field of type ID becomes NonNull(ID), and any other loses its NonNull wrapper |
| InputTypes.ReferenceFieldShapes | src/index.js:229-232 | A referenced object field becomes IdInputType in both shapes, NonNull in the add shape when the field is NonNull |
| InputTypes.UnrelatedObjectOmitted | src/index.js:240-242 | An object field without a relation appears in neither shape |
| InputTypes.EmbeddedFieldShapes | src/index.js:233-239 | An embedded object field blocks until its type has both input types, and then takes them |
| InputTypes.SelfCollectionShapes | src/index.js:244-307 | A list of the type itself becomes its one-to-many delta in both shapes, over the type's own add and update types |
| InputTypes.EntityListShapes | src/index.js:246-254 | A list of another entity blocks until that entity has both input types. It is then the list of them when embedded, and the one-to-many delta otherwise |
| InputTypes.ScalarListShapes | src/index.js:247-251 | A list of scalars or enums keeps its type in both shapes |
| InputTypes.WrappedListAlwaysBlocks | src/index.js:252-253 | A list of lists or of NonNull elements always blocks the type |
| InputTypes.RuleGrows | src/index.js:233-236 | A field rule that does not block gives the same result once more input types exist |
| InputTypes.RulesGrow | src/index.js:202-271 | The rules up to the first blocked field are unchanged once more input types exist |
| InputTypes.ShapesGrow | src/index.js:194-313 | A type that can be built still builds to the same shapes and flag once more input types exist |
| InputTypes.MarksGrow | src/index.js:268 | Once `state` is flagged it stays flagged when more input types exist |
| InputTypes.DependencyBlocks | src/index.js:174-254 | An entity blocks while an entity it needs has no add input type: one it embeds in an editable object field, NonNull or not, or one it holds an editable list of |
| InputTypes.DependencyCycleBlocks | src/index.js:174-254 | Two unbuilt entities that need each other, by embedding or by lists, or one embedding itself, both block |
| InputTypes.EntryHoldsGrows | src/index.js:331-333 | A recorded input type stays consistent with the rules as more input types are recorded |
| InputTypes.RecordFailure | src/index.js:335-336 | Leaving a blocked entity waiting keeps the registry consistent, including the state flags it set |
| InputTypes.RecordSuccess | src/index.js:331-333 | Recording the shapes of a buildable entity keeps the registry consistent |
| InputTypes.InputTypeRegistry.constructor | src/index.js:319 | Starts with no input type and no flagged field |
| InputTypes.InputTypeRegistry.BuildOne | src/index.js:326-337 | Builds exactly when no field blocks. It then records both shapes, changes nothing else and keeps every earlier entry |
| InputTypes.InputTypeRegistry.Visit | src/index.js:323-338 | An entity that already has an input type is not rebuilt. Otherwise it is built and recorded, or it stays waiting and is a blocked entity |
| InputTypes.InputTypeRegistry.Pass | src/index.js:320-339 | Every waiting entity ends built or still waiting, and only unbuilt ones wait. Progress means new entries; with no progress every still-waiting entity is blocked. Earlier entries are kept, and no entity of a dependency cycle without input types is built |
| InputTypes.InputTypeRegistry.BuildPendingInputTypes | src/index.js:319-344 | Earlier entries are kept and only waiting entities gain one. `Resolved` means every waiting entity has input types, in at most one more pass than there are entities. `Stalled` names exactly the waiting entities left unbuilt, each of them blocked by the input types that exist at the end. Waiting entities that need each other and had no input types make the run `Stalled` with both left unbuilt |
| Matching.At | src/index.js:905 | `value[i]` throws exactly on `undefined` and `null`, and is the item at an index inside an array |
| Matching.IdList | src/index.js:907-913 | A truthy value on an `_id` path is converted element by element to ObjectIds and throws when it is not an array; anything else is kept |
| Matching.BuildMatchesClause | src/index.js:886-929 | The clause has exactly the path as its key. It throws exactly for BTW on `undefined` or `null`, and for IN/NIN on a truthy non-array at an `_id` path. EQ or no operator gives the value, as an ObjectId on an `_id` path. LT/GT/LTE/GTE/NE give the one comparison, BTW `[a, b]` gives `{$gte: a, $lte: b}`, and LIKE gives `.*v.*` |
| Matching.EqClauseMeans | src/index.js:888-893 | A document value satisfies an EQ clause exactly when it equals the value, converted on `_id` paths, when that value is not itself an operator document |
| Matching.CompareClauseMeans | src/index.js:894-903 | A value satisfies an LT/GT/LTE/GTE/NE clause exactly when that comparison with the given value holds |
| Matching.RangeClauseMeans | src/index.js:904-905 | A value satisfies a BTW clause on `[a, b]` exactly when it lies between `a` and `b`, both included |
| Matching.ListClauseMeans | src/index.js:906-923 | A value satisfies IN (NIN) exactly when it is (is not) one of the given values, converted on `_id` paths |
| Matching.LikeClauseMeans | src/index.js:924-925 | A value satisfies LIKE `v` exactly when it is a string the pattern `.*v.*` matches |
| Matching.ClauseMeans | src/index.js:886-929 | For every operator given a value of the shape it expects (a pair for BTW, an array for IN/NIN, a plain value for EQ), the clause built is satisfied exactly by the values the operator describes |
| Ordered.ValueOf | src/index.js:964 | Reading a key of an object gives nothing exactly when the key is absent |
| Ordered.PutKeys | src/index.js:1130 | After `obj[k] = v` the keys are the old keys and `k` |
| Ordered.PutValues | src/index.js:1130 | After `obj[k] = v`, `k` holds `v` and every other key holds what it held |
| Ordered.PutPlace | src/index.js:1130 | Assigning to a present key keeps the key order; a new key goes last |
| Ordered.PutUnique | src/index.js:1130 | Assignment never duplicates a key |
| Ordered.PutEntries | src/index.js:1130 | Every entry after the assignment is the new one or an old one |
| Materialize.Checks | src/index.js:359-364 | Validators run in order and stop at the first throw. The run succeeds exactly when all pass, and then every validator was called. On a throw, the last call made is the one that threw |
| Materialize.FieldCalls | src/index.js:361-363 | One call per validator of the operation, in declaration order, with the entity, the field name and the field's value |
| Materialize.EntityCalls | src/index.js:418-420 | One call per entity validator of the operation, in order, with the arguments and the materialised document |
| Materialize.Materialize | src/index.js:348-424 | No call follows a throw. Falsy arguments give null with no call; truthy arguments never give null |
| Materialize.FieldStep | src/index.js:358-409 | A field's validators run before its value is handled, and a validator throw ends the field. A written key is the field's written key; a collected delta is kept under the field's name |
| Materialize.Contribute | src/index.js:366-409 | No call follows a throw; a value is written under the field's written key and a delta under the field's name |
| Materialize.ChecksStopsAt | src/index.js:361-363 | When validator `k` throws first, exactly the first `k + 1` were called and its error is the result |
| Materialize.ChecksAllPass | src/index.js:361-363 | When every validator passes, all were called and the run succeeds |
| Materialize.RunValidators | src/index.js:361-363 | The validator loop makes exactly the calls and has exactly the result of `Checks` |
| Materialize.MaterializeModel | src/index.js:348-424 | The method computes `Materialize` |
| Materialize.FoldFieldRuns | src/index.js:358-410 | Folding the per-field runs in declaration order is the field recursion |
| Materialize.MaterializeFields | src/index.js:358-410 | The field loop is the fold of each field's run, stopping at the first throw |
| Materialize.MaterializeField | src/index.js:358-409 | One iteration of the field loop computes `FieldStep` |
| Materialize.ContributeField | src/index.js:366-409 | The value part of one iteration computes `Contribute` |
| Materialize.MaterializeElements | src/index.js:394-402 | The element loop computes `ElementsFrom` |
| Materialize.FieldsKeep | src/index.js:358-410 | A key that no remaining field writes is present after the loop exactly when it was before, with the same value |
| Materialize.FieldsAppend | src/index.js:392 | Collection deltas are only ever added |
| Materialize.FieldsFinal | src/index.js:358-410 | With distinct written keys, each field's contribution ends in the document (or its key stays absent), and its delta ends in the collection fields |
| Materialize.EntityChecksSeeLinkedDocument | src/index.js:412-421 | `linkToParent` sets its key before the entity validators run. They see the linked document, and the calls are the field calls followed by the entity calls, all passing |
| Materialize.FieldOutcome | src/index.js:358-410 | In a successful materialisation each field's contribution is what the document and the collection fields hold for it |
| Materialize.ScalarFieldCopied | src/index.js:366-371 | A scalar or enum is copied exactly when it is not empty, and `0` and `false` are copied |
| Materialize.ScalarListCopied | src/index.js:405-406 | A list of scalars or enums is copied as given exactly when it is not empty |
| Materialize.ReferenceStoredAsId | src/index.js:374-377 | A referenced object is stored as `ObjectId(value.id)` under its `connectionField`, exactly when it is not empty |
| Materialize.UnrelatedObjectDropped | src/index.js:384-386 | An object field without a relation is not stored |
| Materialize.EmbeddedObjectMaterialised | src/index.js:378-382 | An embedded object, when not empty, is stored as its own materialised document under the field's name |
| Materialize.EmbeddedObjectStep | src/index.js:378-382 | Per field: an empty embedded object contributes nothing, and a present one contributes the materialised sub-document |
| Materialize.ReferenceListCollected | src/index.js:389-392 | A referenced object list is not stored. When not empty, it goes to the collection fields as given |
| Materialize.ElementsAll | src/index.js:396-402 | The element loop yields one materialised document per element, in order |
| Materialize.EmbeddedListStep | src/index.js:393-403 | An empty embedded list contributes nothing. A present one is iterable and gives an array with one entry per element |
| Materialize.EmbeddedListElements | src/index.js:393-403 | Each entry of a materialised embedded list is its element's materialised document |
| Materialize.EmbeddedListMaterialised | src/index.js:393-403 | In the stored document an embedded list is present exactly when not empty, with each element materialised in order |
| Mutations.Items | src/index.js:640 | `for...of` yields a truthy iterable list's items in order; any other value yields none |
| Mutations.Invokes | src/index.js:640-642 | One nested mutation per element, in the list's order |
| Mutations.ExecuteFailFast | src/index.js:640-642 | The nested mutations run in order and stop at the first that fails, whose error is the result |
| Mutations.SavesThenUpdates | src/index.js:447-461 | A field's delta saves each `added` element, then updates each `updated` element, each linked to the parent; `deleted` starts nothing |
| Mutations.UnwalkableCrashes | src/index.js:640 | A truthy `added` value that is not iterable throws before any nested mutation |
| Mutations.DeletedIgnored | src/index.js:636-637 | The content of an iterable `deleted` list changes nothing |
| Mutations.RunBatch | src/index.js:640-642 | The loop over one delta list runs that list's steps |
| Mutations.RunEntry | src/index.js:447-461 | One collection field runs its added, updated and deleted lists in that order |
| Mutations.WalkPlanned | src/index.js:445-462 | Chaining the per-field runs is running the whole plan in field order |
| Mutations.IterateCollectionFields | src/index.js:444-463 | The loop runs every collected field's delta in order and stops at the first failure |
| Mutations.CollectedFromReferenceList | src/index.js:389-392 | A delta is collected only from a list of objects with a relation |
| Mutations.CollectedKeys | src/index.js:613-615 | Every collected key names a field of the type that is a list of objects with a relation, so the lookups of `executeItemFunction` succeed |
| Updates.Combined | src/index.js:494-500 | An array replaces an array; otherwise the result has every key of either side and the new value wins |
| Updates.AsWrittenUnsetsOnlyLast | src/index.js:503-506 | As written, two null nullable fields leave only the second in `$unset`; the corrected merge lists both |
| Updates.MergeFails | src/index.js:492 | The merge throws exactly when there is no stored document and the type has an embedded relation, reading that field of null |
| Updates.MergeEmbedded | src/index.js:489-501 | An embedded field with a truthy new value becomes its combination with the stored one; otherwise the new value is kept |
| Updates.MergeKeeps | src/index.js:489-507 | A key of no embedded field is left as the update had it |
| Updates.MergeUnsets | src/index.js:503-506 | `$unset` exists exactly when some nullable field is explicitly null, and lists exactly those fields |
| Updates.MergeUpdate | src/index.js:489-507 | The `forEach` computes the corrected `Merge` |
| Resolvers.Applied | src/index.js:513-515 | The names under `$unset` are removed; the other update keys are set; other stored keys are kept; nothing else appears |
| Resolvers.UpdateOutcome | src/index.js:476-522 | An update returns the new document and stores the entity's own write under `args.id`. It returns null and stores nothing when there is no such document, and changes nothing on a throw. A failed materialisation starts no nested mutation |
| Resolvers.UpdateMaterialized | src/index.js:484-515 | Runs the collection deltas first, then stores the merged document, built with the corrected `$unset` merge, under the id when one exists; a throw changes nothing. What the stored document holds, field by field, is stated by `UpdateRemovesNullFields`, `UpdateMergesEmbedded`, `UpdateStoresField` and `UpdateKeepsStored` |
| Resolvers.WithState | src/index.js:533 | `args.state` is set and every other argument is kept |
| Resolvers.TransitionOutcome | src/index.js:524-541 | A missing document throws NOT_VALID_ID, and a state other than `from.name` throws BAD_REQUEST, both changing nothing. Success needs state `from.name` and returns `state` as `to.value` |
| Resolvers.TransitionStoresTarget | src/index.js:532-535 | After a successful transition the stored document is in state `to.name` |
| Resolvers.SaveOutcome | src/index.js:543-571 | The entity's own write: saving under an id not yet in the collection adds exactly the new document and no other key, and a throw changes nothing. A failed materialisation starts no nested mutation |
| Resolvers.SaveMaterialized | src/index.js:545-570 | The deltas run under the new id. The stored document has that id and the materialised fields; with a state machine it is in the initial state's name, returned as its value |
| Resolvers.MaterializedWithoutUnset | src/index.js:348-424 | A materialised document never has a `$unset` key |
| Resolvers.UpdateRemovesNullFields | src/index.js:503-506 | With the corrected merge, every nullable field given as null is absent from the updated document (as written only the last one is removed) |
| Resolvers.UpdateMergesEmbedded | src/index.js:489-501 | An embedded field with a new value is stored as its combination with the old value |
| Resolvers.UpdateKeepsStored | src/index.js:513-515 | A stored key that the update does not set and no field names keeps its stored value |
| Resolvers.UpdateStoresField | src/index.js:489-515 | Any other field given a value is stored with that value |
| Resolvers.Collection.constructor | src/index.js:476 | The collection starts with the given documents |
| Resolvers.Collection.UpdateSubject | src/index.js:476-522 | The method's result and new collection are those of `UpdateOutcome` |
| Resolvers.Collection.UpdateWith | src/index.js:484-515 | The update after materialisation gives `UpdateMaterialized` |
| Resolvers.Collection.StateChanged | src/index.js:524-541 | The method's result and new collection are those of `TransitionOutcome` |
| Resolvers.Collection.SaveObject | src/index.js:543-571 | The method's result and new collection are those of `SaveOutcome` |
| Resolvers.Collection.SaveWith | src/index.js:545-570 | The save after materialisation gives `SaveMaterialized` |
| Terms.AddJoinSound | src/index.js:1047 | Adding a join only where its alias is new keeps aliases unique and keeps the earlier joins |
| Terms.SegmentSound | src/index.js:1015-1079 | One path segment keeps the clauses sound: aliases unique and starting with the field name, keys unique and, keyed by path, each clause on its own key. Earlier joins are kept |
| Terms.WalkSound | src/index.js:1014-1080 | A whole dotted path keeps that soundness and only adds joins |
| Terms.TermSound | src/index.js:958-1082 | One term keeps soundness and includes the filtered field's own join |
| Terms.TermsSound | src/index.js:958-1082 | All the terms keep soundness and only add joins |
| Terms.QueryTermsSound | src/index.js:931-1085 | Every result has at most one join per alias, each alias extends the field name, and one clause per key. Keyed by path, each clause constrains only its own path |
| Terms.ReferencedHop | src/index.js:1036-1073 | A referenced hop makes the alias `alias[_embedded]_segment` and clears the embedded path. When the alias is new its join is appended, from the related collection: a list has foreign field `connectionField` and local field `<path>._id`; a single relation has foreign field `_id` and local field `<path>.<connectionField>` |
| Terms.EmbeddedHop | src/index.js:1074-1078 | An embedded hop only extends the embedded path and adds no join |
| Terms.ScalarLeaf | src/index.js:1016-1027 | Keyed by path, a scalar leaf adds the clause built for the full dotted path (with `id` stored as `_id` and date values coerced) under that path, and adds no join |
| Terms.FilterJoinAlone | src/index.js:964-990 | The filtered field's own join, aliased by the field name: a list has foreign field `connectionField` and local field `_id`; a single relation has foreign field `_id` and local field `connectionField` |
| Terms.FilterJoinFirst | src/index.js:958-991 | For a referenced field with terms, its own join comes first |
| Terms.EmbeddedFilterNoJoins | src/index.js:959-960 | An embedded field filtered on its own fields adds no join |
| Terms.OneSegmentStep | src/index.js:994-1004 | On a field that references nothing, a single-segment term adds no join. It puts the clause built for `field.<name>` under that path when keyed by path, and under the field name as the source writes it |
| Terms.AsWrittenDropsTerm | src/index.js:1004 | As written, two single-segment terms on one relation keep only the second clause |
| Terms.ByPathKeepsBothTerms | src/index.js:1004 | For the filter `author` with `name = "Ann"` and `age GT 30`, keyed by path, both clauses are kept |
| Terms.TermsKeyedByPath | src/index.js:958-1082 | Keyed by path, the single-segment terms each leave a clause under their own path. Earlier keys are kept, a key no term constrains keeps its clause, and each path holds the clause of its last term |
| Terms.ByPathKeepsEveryTerm | src/index.js:994-1004 | For every filter on an object whose terms each name one field, every term's path is a key of the result, holding the clause of the last term on that path |
| Terms.StepSegment | src/index.js:1015-1079 | The body of the segment loop computes `SegmentStep` |
| Terms.WalkPath | src/index.js:1014-1080 | The segment loop computes `WalkFrom` |
| Terms.AddTerm | src/index.js:958-1082 | The body of the term loop computes `TermStep` |
| Terms.BuildQueryTerms | src/index.js:931-1085 | The method computes `QueryTerms` with single-segment clauses keyed by their path, the corrected form of src/index.js:1004 |
| Query.JoinStagesShape | src/index.js:1104-1107 | Each join becomes its `$lookup` directly followed by its `$unwind`, keeping unmatched documents, in join order after the earlier stages |
| Query.FiltersPaired | src/index.js:1097-1119 | After all the filters the stages are still lookup/unwind pairs |
| Query.TailOrder | src/index.js:1137-1152 | The stages after the joins are in the order match, sort, limit, skip, count, each at most once |
| Query.TailMatch | src/index.js:1137-1139 | A `$match` is present exactly when some condition was added, and it comes first, holding the conditions |
| Query.TailSort | src/index.js:1141-1143 | A `$sort` is present exactly when a sort was given and the query is not a count, right after the match |
| Query.TailEnd | src/index.js:1145-1152 | A count ends with exactly one `$count: 'size'`. Any other query ends with `$limit` then `$skip` and has no `$count` |
| Query.StagesOrder | src/index.js:1104-1152 | Every lookup/unwind pair comes before every other stage |
| Query.StagesMatch | src/index.js:1137-1139 | Appended after the joins, the `$match` is placed as the tail states |
| Query.StagesSort | src/index.js:1141-1143 | Appended after the joins, the `$sort` is placed as the tail states |
| Query.StagesEnd | src/index.js:1145-1152 | Appended after the joins, the pipeline ends as the tail states |
| Query.PipelineShape | src/index.js:1087-1155 | A pipeline is the filter joins followed by a well-shaped tail |
| Query.PipelineNeverEmpty | src/index.js:1145-1148 | A non-count pipeline has at least two stages and ends with `$limit` and `$skip` |
| Query.PaginationOf | src/index.js:1092-1125 | Without pagination the limit is 100 and the skip 0. Otherwise the last pagination sets skip to `size * (page - 1)` and limit to `size + skip` |
| Query.SortingOf | src/index.js:1126-1133 | Without a sort argument there is no sort; otherwise the last one sets it |
| Query.SortDirections | src/index.js:1127-1131 | The sort keys are exactly the fields named, each once. Each field takes the direction of its last term: 1 for ASC, -1 otherwise |
| Query.AbsorbKeyedKeys | src/index.js:1109-1118 | After merging the clauses, the condition keys are the old ones and the clauses' keys, and `addMatch` holds exactly when it did or some clause was merged |
| Query.AbsorbKeyedValues | src/index.js:1109-1118 | Every merged clause is part of the conditions, and conditions on other keys are kept |
| Query.FilterStepMatched | src/index.js:1097-1119 | One filter argument adds exactly its clauses' keys to the conditions, and keeps every other condition |
| Query.MergeClause | src/index.js:1111-1117 | Merging a clause sets each of its conditions, and reports whether it set any |
| Query.MergeClauses | src/index.js:1109-1118 | The loop over the clauses computes `AbsorbFrom` |
| Query.PushJoins | src/index.js:1104-1107 | The loop computes `JoinStagesFrom` |
| Query.SortExpressionsOf | src/index.js:1127-1131 | The `forEach` computes `SortExpressions` |
| Query.AddFilter | src/index.js:1097-1119 | One filter argument computes `FilterStep` |
| Query.Finish | src/index.js:1136-1152 | The stages pushed after the loop are exactly the tail |
| Query.BuildQuery | src/index.js:1087-1155 | The method computes `Pipeline`, over the path-keyed query terms |

## Left out

- Mongoose I/O is left out because it is foreign calls. This covers model creation (`generateModel`), `findById`, `save`, `aggregate` and `findByIdAndDelete`. The store is a map from id to document, and `findByIdAndUpdate` is `Resolvers.Applied`.
- The transaction and retry wrappers `executeOperation` and `executeRegisteredMutation` (src/index.js:426-442, 578-609) are left out: they handle driver sessions and recovery from transient conflicts.
- `onDeleteObject` (src/index.js:465-474) is left out: it is a materialisation followed by a foreign delete call.
- GraphQL schema assembly is left out because it is wiring over the graphql library. This covers `buildMutation`, `buildRootQuery`, `createSchema` and the introspection patch. It includes the list resolver's count query and the choice between `aggregate` and `find({})`.
- The middleware chain (src/index.js:648-664) is left out: its callbacks come from outside.
- Nested mutations are described only by whether each one throws (`Outcomes`). The documents they write are not modelled, including the writes to the same collection made by a self-referencing collection field; the resolvers' collection states only the mutated entity's own write.
- A new document's id stands for the one the database assigns: the save members require it to be absent from the collection.
- Controller hooks (`onUpdating`, `onUpdated`, `onSaving`, `onSaved`) and a transition's `action` callback are left out: they are caller code.
- The cast of `args.id` to an ObjectId is left out, along with Mongoose's casting of values against the schema and `versionKey`.
- Mongoose's conflicts between `$set` and `$unset` on the same path are left out.
- `console.log` and `console.warn` are left out.
- `const/QLValue.js` is left out: it is a floating-point scalar codec.
- The error classes' wall-clock timestamp is left out. Errors are a datatype of message, code, status and cause.
- `description` fields are left out because they have no effect on behaviour.
- Numbers are unbounded integers: floating point, `NaN` and precision beyond 2^53 are not modelled. Object keys keep insertion order, so the engine's reordering of integer-like keys is not modelled.
- TypeError messages are the engine's texts only approximately.
- The regular-expression semantics are a `Matcher` parameter. Matching against array-valued document fields is not modelled.
- `buildQueryTerms` writes the coerced date back into `term.value`. The model passes the coerced value on instead of mutating the caller's term.
- InputTypes.InputTypeRegistry.BuildPendingInputTypes: a run without progress ends as `Stalled`, where the source's unbounded recursion ends in a stack-overflow `RangeError`.
- The registry is closed: every object type a field names is registered (`Schema.WellFormed`, required by the `InputTypeRegistry` constructor and kept by its invariant). An embedded or list field whose type neither `connect` nor `addNoEndpointType` registered makes the source throw a `TypeError` reading `.inputType` of an undefined entry (src/index.js:177, 233), aborting the pass; that throw is not modelled.
- EmbeddedFieldShapes: for an embedded type missing from the registry the field blocks, where the source throws a `TypeError` at src/index.js:233; the registry's closure rules this case out.
- EntityListShapes: for an element entity missing from the registry the field blocks, where the source throws a `TypeError` at src/index.js:177; the registry's closure rules this case out.
- GraphQLListInputType: an element entity missing from the dictionary gives null, where the source throws a `TypeError` at src/index.js:177; the registry's closure rules this case out.
- Shapes are built once. The source's `_fields` patching of the built GraphQL types is modelled as extra entries in the two shapes.

## Findings

| source | as written | input that shows it | evidently intended | confidence | as-written member | corrected member |
|---|---|---|---|---|---|---|
| src/index.js:503-506 | Each null nullable field rebuilds `$unset` from nothing, so only the last such field is removed | nullable fields `a` and `b`, both given as `null` | every nullable field given as `null` is listed under `$unset` | not executed | Updates.AsWrittenUnsetsOnlyLast | Updates.MergeUnsets |
| src/index.js:1004 | A single-segment term is keyed by the field name, so a second such term on the same relation overwrites the first | filter `author` with terms `name = "Ann"` and `age GT 30` | each term keeps its own clause, keyed by its path | not executed | Terms.AsWrittenDropsTerm | Terms.ByPathKeepsEveryTerm |
