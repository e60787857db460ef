/**
 * `buildQueryTerms` (src/index.js:931-1085): the join stages and match
 * clauses one filter argument contributes to a query. A scalar or enum
 * field gives one clause on its own path. An object field gives, per term,
 * the join of the field's own relation and then either a clause on one of
 * its fields or a walk along a dotted path, where every hop through a
 * referenced (non-embedded) relation adds a join under a longer alias and
 * every embedded hop only extends the embedded path.
 *
 * `matchesClauses` is keyed in the source by the field name for a term
 * with one segment and by `alias_segment` for a dotted one, so that terms
 * landing on the same key overwrite each other. `byPath` selects the key:
 * `false` is the source's keying, `true` keys each clause by the path it
 * constrains, which is what the rest of the model uses.
 */
module Terms {
  import opened Wrappers
  import opened Values
  import opened Schema
  import opened Errors
  import opened Matching
  import opened Ordered

  /** A `QLTypeFilter` term: a path below the filtered field, with its operator and value. */
  datatype Term = Term(path: string, operator: Option<Operator>, value: Value)

  /** A filter argument: `QLFilter` (operator and value) or `QLTypeFilterExpression` (terms). */
  datatype FilterField = FilterField(operator: Option<Operator>, value: Value, terms: seq<Term>)

  /**
   * A `$lookup` stage `{from, foreignField, localField, as}`; it goes with
   * `{$unwind: {path: '$' + as, preserveNullAndEmptyArrays: true}}`.
   */
  datatype Join = Join(from: string, foreignField: string, localField: string, alias: string)

  /** `aggregateClauses` (keyed by each join's `as`, here `alias`) and `matchesClauses`. */
  datatype Clauses = Clauses(joins: seq<Join>, matches: Entries<Doc>)

  predicate HasAlias(joins: seq<Join>, alias: string) {
    exists i :: 0 <= i < |joins| && joins[i].alias == alias
  }

  /** `if (!aggregateClauses[alias]) aggregateClauses[alias] = …`. */
  function AddJoin(joins: seq<Join>, j: Join): seq<Join> {
    if HasAlias(joins, j.alias) then joins else joins + [j]
  }

  predicate UniqueAliases(joins: seq<Join>) {
    forall i, j :: 0 <= i < j < |joins| ==> joins[i].alias != joins[j].alias
  }

  /** `t.ofType` for a List or NonNull wrapper, `t` itself otherwise. */
  function OfType(t: GqlType): GqlType {
    if t.List? then t.elem else Unwrap(t)
  }

  /** A relation that references another collection rather than embedding it. */
  predicate Referencing(f: Field) {
    f.relation.Some? && !f.relation.value.embedded
  }

  /** The TypeError of calling `getFields` on what is not an object type. */
  function NotObjectType(holder: string): Thrown {
    Unknown(holder + ".getFields is not a function")
  }

  /** Reading `.type` of a field that the type does not have. */
  const MISSING_FIELD: Thrown := Unknown(PropertyRead("undefined", "type"))

  /** Destructuring `model` from `typesDict.types[name]` when there is no such entry. */
  const UNREGISTERED: Thrown := Unknown(PropertyRead("undefined", "model"))

  /**
   * `t.getFields()` for an object type of the registry. An object type the
   * registry does not hold has no fields this model knows of, and is
   * treated like a type without `getFields`.
   */
  function FieldsOf(reg: Registry, t: GqlType, holder: string): Result<seq<Field>, Thrown> {
    if t.Object? && t.typeName in reg then Ok(reg[t.typeName].gqltype.fields) else Err(NotObjectType(holder))
  }

  /** `typesDict.types[t.name].model.collection.collectionName`. */
  function CollectionOf(reg: Registry, t: GqlType): Result<string, Thrown> {
    var n := TypeName(t);
    if n.Some? && n.value in reg then Ok(reg[n.value].collectionName) else Err(UNREGISTERED)
  }

  /** A value filtered against a DateTime, Date or Time field is coerced to dates. */
  function DateAware(t: GqlType, v: Value): Value {
    if IsIsoDateType(t) then CoerceDateValue(v) else v
  }

  /** `id` is stored as `_id`. */
  function StoredName(name: string): string {
    if name == "id" then "_id" else name
  }

  /** The join of a filtered field's own relation (src/index.js:969-989). */
  function FilterJoin(f: Field, fieldName: string, from: string): Join
    requires f.relation.Some?
  {
    var connection := f.relation.value.connectionField;
    if f.ty.List? then Join(from, connection, "_id", fieldName)
    else Join(from, "_id", connection, fieldName)
  }

  /** The join of one referenced hop of a dotted path (src/index.js:1057-1076). */
  function HopJoin(pf: Field, currentPath: string, alias: string, from: string): Join
    requires pf.relation.Some?
  {
    var connection := pf.relation.value.connectionField;
    if pf.ty.List? then Join(from, connection, currentPath + "._id", alias)
    else Join(from, "_id", currentPath + "." + connection, alias)
  }

  /** The document path reached so far: the alias, then the embedded path if any. */
  function Dotted(alias: string, embedded: string): string {
    alias + (if embedded != "" then "." + embedded else "")
  }

  /** The alias after a referenced hop through `seg`. */
  function HopAlias(alias: string, embedded: string, seg: string): string {
    alias + (if embedded != "" then "_" + embedded + "_" else "_") + seg
  }

  /** The embedded path after an embedded hop through `seg`. */
  function Extend(embedded: string, seg: string): string {
    if embedded == "" then seg else embedded + "." + seg
  }

  /** The state of the walk along a dotted path. */
  datatype Walk = Walk(current: GqlType, alias: string, embedded: string, value: Value, clauses: Clauses)

  predicate ScalarField(t: GqlType) {
    t.Scalar? || (t.NonNull? && t.inner.Scalar?)
  }

  predicate HopField(t: GqlType) {
    t.Object? || t.List? || (t.NonNull? && t.inner.Object?)
  }

  /** One segment of a dotted path (src/index.js:1013-1082). */
  function SegmentStep(reg: Registry, operator: Option<Operator>, byPath: bool, w: Walk, seg: string): Result<Walk, Thrown> {
    match FieldsOf(reg, w.current, "currentGQLPathFieldType")
    case Err(e) => Err(e)
    case Ok(fs) =>
      match FieldNamed(fs, seg)
      case None => Err(MISSING_FIELD)
      case Some(pf) =>
        if ScalarField(pf.ty) then
          var value := DateAware(pf.ty, w.value);
          var path := Dotted(w.alias, w.embedded) + "." + StoredName(seg);
          match BuildMatchesClause(path, operator, value)
          case Err(e) => Err(e)
          case Ok(c) =>
            var key := if byPath then path else w.alias + "_" + seg;
            Ok(Walk(w.current, w.alias, "", value, Clauses(w.clauses.joins, Put(w.clauses.matches, key, c))))
        else if HopField(pf.ty) then
          var next := OfType(pf.ty);
          if Referencing(pf) then
            var alias := HopAlias(w.alias, w.embedded, seg);
            match CollectionOf(reg, next)
            case Err(e) => Err(e)
            case Ok(from) =>
              var j := HopJoin(pf, Dotted(w.alias, w.embedded), alias, from);
              Ok(Walk(next, alias, "", w.value, Clauses(AddJoin(w.clauses.joins, j), w.clauses.matches)))
          else Ok(Walk(next, w.alias, Extend(w.embedded, seg), w.value, w.clauses))
        else Ok(w)
  }

  /** The walk over the segments from `i` on, stopping at the first error. */
  function WalkFrom(reg: Registry, operator: Option<Operator>, byPath: bool, segs: seq<string>, i: nat, w: Walk): Result<Walk, Thrown>
    requires i <= |segs|
    decreases |segs| - i
  {
    if i == |segs| then Ok(w)
    else
      match SegmentStep(reg, operator, byPath, w, segs[i])
      case Err(e) => Err(e)
      case Ok(next) => WalkFrom(reg, operator, byPath, segs, i + 1, next)
  }

  /** The join of the filtered field's relation, added once (src/index.js:963-991). */
  function FilterJoins(reg: Registry, f: Field, fieldName: string, joins: seq<Join>): Result<seq<Join>, Thrown> {
    if Referencing(f) then
      match CollectionOf(reg, OfType(f.ty))
      case Err(e) => Err(e)
      case Ok(from) => Ok(AddJoin(joins, FilterJoin(f, fieldName, from)))
    else Ok(joins)
  }

  /** The path a single-segment term constrains: the filtered field, then the named field as stored. */
  function TermKey(fieldName: string, term: Term): string {
    fieldName + "." + StoredName(term.path)
  }

  /**
   * The condition of a single-segment term (src/index.js:994-1003): the
   * clause built for the full path of the field it names, with that path.
   */
  function SegmentClause(reg: Registry, f: Field, fieldName: string, term: Term): (r: Result<(string, Doc), Thrown>)
    ensures r.Ok? ==> r.value.0 == TermKey(fieldName, term)
  {
    match FieldsOf(reg, OfType(f.ty), "fieldType")
    case Err(e) => Err(e)
    case Ok(fs) =>
      match FieldNamed(fs, term.path)
      case None => Err(MISSING_FIELD)
      case Some(pf) =>
        var path := fieldName + "." + StoredName(pf.name);
        match BuildMatchesClause(path, term.operator, DateAware(pf.ty, term.value))
        case Err(e) => Err(e)
        case Ok(c) => Ok((path, c))
  }

  /** One term of an object filter (src/index.js:962-1083). */
  function TermStep(reg: Registry, f: Field, fieldName: string, byPath: bool, acc: Clauses, term: Term): Result<Clauses, Thrown> {
    match FilterJoins(reg, f, fieldName, acc.joins)
    case Err(e) => Err(e)
    case Ok(joins) =>
      if !Contains(term.path, '.') then
        match SegmentClause(reg, f, fieldName, term)
        case Err(e) => Err(e)
        case Ok(pc) => Ok(Clauses(joins, Put(acc.matches, if byPath then pc.0 else fieldName, pc.1)))
      else
        var start := Walk(OfType(f.ty), fieldName, "", term.value, Clauses(joins, acc.matches));
        match WalkFrom(reg, term.operator, byPath, Split(term.path, '.'), 0, start)
        case Err(e) => Err(e)
        case Ok(w) => Ok(w.clauses)
  }

  /** The terms from `i` on, stopping at the first error. */
  function TermsFrom(reg: Registry, f: Field, fieldName: string, byPath: bool, terms: seq<Term>, i: nat, acc: Clauses): Result<Clauses, Thrown>
    requires i <= |terms|
    decreases |terms| - i
  {
    if i == |terms| then Ok(acc)
    else
      match TermStep(reg, f, fieldName, byPath, acc, terms[i])
      case Err(e) => Err(e)
      case Ok(next) => TermsFrom(reg, f, fieldName, byPath, terms, i + 1, next)
  }

  /** The type a filter is read against: the element type of a list (src/index.js:935-938). */
  function FilteredType(t: GqlType): GqlType {
    if t.List? then t.elem else t
  }

  /** `buildQueryTerms(filterField, qlField, fieldName)`, under the keying `byPath` selects. */
  function QueryTerms(reg: Registry, filter: FilterField, f: Field, fieldName: string, byPath: bool): Result<Clauses, Thrown> {
    var ft := FilteredType(f.ty);
    if IsScalarLike(ft) then
      var path := StoredName(fieldName);
      match BuildMatchesClause(path, filter.operator, DateAware(ft, filter.value))
      case Err(e) => Err(e)
      case Ok(c) => Ok(Clauses([], [(if byPath then path else fieldName, c)]))
    else if IsObjectLike(ft) then TermsFrom(reg, f, fieldName, byPath, filter.terms, 0, Clauses([], []))
    else Ok(Clauses([], []))
  }

  /**
   * What every result of `buildQueryTerms` keeps: one join per alias, each
   * alias starting with the filtered field's name, one clause per key, and,
   * keyed by path, every clause constraining exactly its own key.
   */
  predicate Sound(fieldName: string, byPath: bool, c: Clauses) {
    && UniqueAliases(c.joins)
    && (forall i :: 0 <= i < |c.joins| ==> fieldName <= c.joins[i].alias)
    && UniqueKeys(c.matches)
    && (byPath ==> forall i :: 0 <= i < |c.matches| ==> c.matches[i].1.Keys == {c.matches[i].0})
  }

  lemma AddJoinSound(fieldName: string, byPath: bool, c: Clauses, j: Join)
    requires Sound(fieldName, byPath, c) && fieldName <= j.alias
    ensures Sound(fieldName, byPath, Clauses(AddJoin(c.joins, j), c.matches))
    ensures c.joins <= AddJoin(c.joins, j) && HasAlias(AddJoin(c.joins, j), j.alias)
  {
    if !HasAlias(c.joins, j.alias) {
      assert AddJoin(c.joins, j)[|c.joins|] == j;
    }
  }

  lemma PutSound(fieldName: string, byPath: bool, c: Clauses, key: string, clause: Doc)
    requires Sound(fieldName, byPath, c) && (byPath ==> clause.Keys == {key})
    ensures Sound(fieldName, byPath, Clauses(c.joins, Put(c.matches, key, clause)))
  {
    PutUnique(c.matches, key, clause);
    PutEntries(c.matches, key, clause);
    var m := Put(c.matches, key, clause);
    if byPath {
      forall i | 0 <= i < |m| ensures m[i].1.Keys == {m[i].0} {
        if m[i] != (key, clause) {
          var n :| 0 <= n < |c.matches| && c.matches[n] == m[i];
        }
      }
    }
  }

  lemma PrefixExtended(p: string, a: string, b: string)
    requires p <= a
    ensures p <= a + b
  {
    assert (a + b)[..|p|] == a[..|p|];
  }

  /** One segment keeps a walk sound and only adds joins. */
  lemma SegmentSound(reg: Registry, operator: Option<Operator>, fieldName: string, byPath: bool, w: Walk, seg: string)
    requires Sound(fieldName, byPath, w.clauses) && fieldName <= w.alias
    requires SegmentStep(reg, operator, byPath, w, seg).Ok?
    ensures var next := SegmentStep(reg, operator, byPath, w, seg).value;
            Sound(fieldName, byPath, next.clauses) && fieldName <= next.alias && w.clauses.joins <= next.clauses.joins
  {
    var fs := FieldsOf(reg, w.current, "currentGQLPathFieldType").value;
    var pf := FieldNamed(fs, seg).value;
    if ScalarField(pf.ty) {
      var path := Dotted(w.alias, w.embedded) + "." + StoredName(seg);
      var c := BuildMatchesClause(path, operator, DateAware(pf.ty, w.value)).value;
      PutSound(fieldName, byPath, w.clauses, if byPath then path else w.alias + "_" + seg, c);
    } else if HopField(pf.ty) && Referencing(pf) {
      var alias := HopAlias(w.alias, w.embedded, seg);
      PrefixExtended(fieldName, w.alias, alias[|w.alias|..]);
      assert alias == w.alias + alias[|w.alias|..];
      var j := HopJoin(pf, Dotted(w.alias, w.embedded), alias, CollectionOf(reg, OfType(pf.ty)).value);
      AddJoinSound(fieldName, byPath, w.clauses, j);
    }
  }

  lemma {:induction false} WalkSound(reg: Registry, operator: Option<Operator>, fieldName: string, byPath: bool, segs: seq<string>, i: nat, w: Walk)
    requires i <= |segs|
    requires Sound(fieldName, byPath, w.clauses) && fieldName <= w.alias
    requires WalkFrom(reg, operator, byPath, segs, i, w).Ok?
    ensures var r := WalkFrom(reg, operator, byPath, segs, i, w).value;
            Sound(fieldName, byPath, r.clauses) && w.clauses.joins <= r.clauses.joins
    decreases |segs| - i
  {
    if i < |segs| {
      SegmentSound(reg, operator, fieldName, byPath, w, segs[i]);
      WalkSound(reg, operator, fieldName, byPath, segs, i + 1, SegmentStep(reg, operator, byPath, w, segs[i]).value);
    }
  }

  /** One term keeps the clauses sound and only adds joins. */
  lemma TermSound(reg: Registry, f: Field, fieldName: string, byPath: bool, acc: Clauses, term: Term)
    requires Sound(fieldName, byPath, acc)
    requires TermStep(reg, f, fieldName, byPath, acc, term).Ok?
    ensures var r := TermStep(reg, f, fieldName, byPath, acc, term).value;
            && Sound(fieldName, byPath, r) && acc.joins <= r.joins
            && FilterJoins(reg, f, fieldName, acc.joins).Ok? && FilterJoins(reg, f, fieldName, acc.joins).value <= r.joins
  {
    var joins := FilterJoins(reg, f, fieldName, acc.joins).value;
    if Referencing(f) {
      AddJoinSound(fieldName, byPath, acc, FilterJoin(f, fieldName, CollectionOf(reg, OfType(f.ty)).value));
    }
    var joined := Clauses(joins, acc.matches);
    assert Sound(fieldName, byPath, joined) && acc.joins <= joins;
    if !Contains(term.path, '.') {
      var pf := FieldNamed(FieldsOf(reg, OfType(f.ty), "fieldType").value, term.path).value;
      var path := fieldName + "." + StoredName(pf.name);
      var c := BuildMatchesClause(path, term.operator, DateAware(pf.ty, term.value)).value;
      PutSound(fieldName, byPath, joined, if byPath then path else fieldName, c);
    } else {
      WalkSound(reg, term.operator, fieldName, byPath, Split(term.path, '.'), 0, Walk(OfType(f.ty), fieldName, "", term.value, joined));
    }
  }

  lemma {:induction false} TermsSound(reg: Registry, f: Field, fieldName: string, byPath: bool, terms: seq<Term>, i: nat, acc: Clauses)
    requires i <= |terms|
    requires Sound(fieldName, byPath, acc)
    requires TermsFrom(reg, f, fieldName, byPath, terms, i, acc).Ok?
    ensures var r := TermsFrom(reg, f, fieldName, byPath, terms, i, acc).value;
            Sound(fieldName, byPath, r) && acc.joins <= r.joins
    decreases |terms| - i
  {
    if i < |terms| {
      TermSound(reg, f, fieldName, byPath, acc, terms[i]);
      TermsSound(reg, f, fieldName, byPath, terms, i + 1, TermStep(reg, f, fieldName, byPath, acc, terms[i]).value);
    }
  }

  /**
   * Join de-duplication and clause keying: a filter yields at most one join
   * per alias, every alias extends the filtered field's name, every key
   * holds one clause, and keyed by path each clause is about its own key.
   */
  lemma QueryTermsSound(reg: Registry, filter: FilterField, f: Field, fieldName: string, byPath: bool)
    requires QueryTerms(reg, filter, f, fieldName, byPath).Ok?
    ensures Sound(fieldName, byPath, QueryTerms(reg, filter, f, fieldName, byPath).value)
  {
    var ft := FilteredType(f.ty);
    if !IsScalarLike(ft) && IsObjectLike(ft) {
      TermsSound(reg, f, fieldName, byPath, filter.terms, 0, Clauses([], []));
    }
  }

  /**
   * A hop through a referenced relation: the alias grows by the segment
   * (after the embedded path, if any), the embedded path restarts, and the
   * joins hold one for the new alias. A list relation joins its
   * connection field to the `_id` below the current path; a single one
   * joins `_id` to the connection field below the current path.
   */
  lemma ReferencedHop(reg: Registry, operator: Option<Operator>, byPath: bool, w: Walk, seg: string, pf: Field)
    requires FieldsOf(reg, w.current, "currentGQLPathFieldType").Ok?
    requires FieldNamed(FieldsOf(reg, w.current, "currentGQLPathFieldType").value, seg) == Some(pf)
    requires HopField(pf.ty) && Referencing(pf)
    requires SegmentStep(reg, operator, byPath, w, seg).Ok?
    ensures var next := SegmentStep(reg, operator, byPath, w, seg).value;
            && next.alias == HopAlias(w.alias, w.embedded, seg)
            && next.embedded == ""
            && next.current == OfType(pf.ty)
            && next.clauses.matches == w.clauses.matches
            && HasAlias(next.clauses.joins, next.alias)
            && (!HasAlias(w.clauses.joins, next.alias) ==>
                  && |next.clauses.joins| == |w.clauses.joins| + 1
                  && var j := next.clauses.joins[|w.clauses.joins|];
                  && j.alias == next.alias
                  && Ok(j.from) == CollectionOf(reg, OfType(pf.ty))
                  && (pf.ty.List? ==>
                        j.foreignField == pf.relation.value.connectionField
                        && j.localField == Dotted(w.alias, w.embedded) + "._id")
                  && (!pf.ty.List? ==>
                        j.foreignField == "_id"
                        && j.localField == Dotted(w.alias, w.embedded) + "." + pf.relation.value.connectionField))
  {
    var next := SegmentStep(reg, operator, byPath, w, seg).value;
    if !HasAlias(w.clauses.joins, next.alias) {
      assert next.clauses.joins[|w.clauses.joins|].alias == next.alias;
    }
  }

  /** An embedded hop (or one with no relation) extends the embedded path and adds no join. */
  lemma EmbeddedHop(reg: Registry, operator: Option<Operator>, byPath: bool, w: Walk, seg: string, pf: Field)
    requires FieldsOf(reg, w.current, "currentGQLPathFieldType").Ok?
    requires FieldNamed(FieldsOf(reg, w.current, "currentGQLPathFieldType").value, seg) == Some(pf)
    requires HopField(pf.ty) && !Referencing(pf)
    ensures SegmentStep(reg, operator, byPath, w, seg)
            == Ok(Walk(OfType(pf.ty), w.alias, Extend(w.embedded, seg), w.value, w.clauses))
  {
  }

  /**
   * A scalar segment constrains the path reached so far plus the segment
   * (`_id` for `id`), with its value coerced for a date field, and
   * restarts the embedded path; keyed by path the clause is found under
   * that path.
   */
  lemma ScalarLeaf(reg: Registry, operator: Option<Operator>, w: Walk, seg: string, pf: Field)
    requires FieldsOf(reg, w.current, "currentGQLPathFieldType").Ok?
    requires FieldNamed(FieldsOf(reg, w.current, "currentGQLPathFieldType").value, seg) == Some(pf)
    requires ScalarField(pf.ty)
    requires SegmentStep(reg, operator, true, w, seg).Ok?
    ensures var next := SegmentStep(reg, operator, true, w, seg).value;
            var path := Dotted(w.alias, w.embedded) + "." + StoredName(seg);
            && next.alias == w.alias && next.embedded == "" && next.current == w.current
            && next.clauses.joins == w.clauses.joins
            && BuildMatchesClause(path, operator, DateAware(pf.ty, w.value)).Ok?
            && ValueOf(next.clauses.matches, path) == Some(BuildMatchesClause(path, operator, DateAware(pf.ty, w.value)).value)
  {
    var path := Dotted(w.alias, w.embedded) + "." + StoredName(seg);
    PutValues(w.clauses.matches, path, BuildMatchesClause(path, operator, DateAware(pf.ty, w.value)).value, path);
  }

  /**
   * A filter on a referenced relation with at least one term starts the
   * pipeline with that relation's join, under the field's name: a list
   * relation joins its connection field to `_id`, a single one `_id` to
   * its connection field.
   */
  lemma FilterJoinAlone(reg: Registry, f: Field, fieldName: string)
    requires Referencing(f) && CollectionOf(reg, OfType(f.ty)).Ok?
    ensures FilterJoins(reg, f, fieldName, []) == Ok([FilterJoin(f, fieldName, CollectionOf(reg, OfType(f.ty)).value)])
  {
    var j := FilterJoin(f, fieldName, CollectionOf(reg, OfType(f.ty)).value);
    assert !HasAlias([], j.alias);
    assert AddJoin([], j) == [j];
  }

  lemma FilterJoinFirst(reg: Registry, filter: FilterField, f: Field, fieldName: string, byPath: bool)
    requires IsObjectLike(FilteredType(f.ty))
    requires Referencing(f) && |filter.terms| > 0
    requires QueryTerms(reg, filter, f, fieldName, byPath).Ok?
    ensures var c := QueryTerms(reg, filter, f, fieldName, byPath).value;
            && CollectionOf(reg, OfType(f.ty)).Ok?
            && |c.joins| > 0
            && c.joins[0] == FilterJoin(f, fieldName, CollectionOf(reg, OfType(f.ty)).value)
  {
    var empty := Clauses([], []);
    assert QueryTerms(reg, filter, f, fieldName, byPath) == TermsFrom(reg, f, fieldName, byPath, filter.terms, 0, empty);
    var first := TermStep(reg, f, fieldName, byPath, empty, filter.terms[0]);
    assert first.Ok?;
    assert FilterJoins(reg, f, fieldName, []).Ok?;
    assert CollectionOf(reg, OfType(f.ty)).Ok?;
    var j := FilterJoin(f, fieldName, CollectionOf(reg, OfType(f.ty)).value);
    FilterJoinAlone(reg, f, fieldName);
    TermSound(reg, f, fieldName, byPath, empty, filter.terms[0]);
    assert first.value.joins[..1] == [j];
    TermsSound(reg, f, fieldName, byPath, filter.terms, 1, first.value);
  }

  /** Every term steps to a clause on a field of the filtered type, with no dotted path. */
  predicate OneSegment(terms: seq<Term>) {
    forall i :: 0 <= i < |terms| ==> !Contains(terms[i].path, '.')
  }

  lemma EmbeddedTermNoJoin(reg: Registry, f: Field, fieldName: string, byPath: bool, acc: Clauses, term: Term)
    requires !Referencing(f) && !Contains(term.path, '.')
    requires TermStep(reg, f, fieldName, byPath, acc, term).Ok?
    ensures TermStep(reg, f, fieldName, byPath, acc, term).value.joins == acc.joins
  {
  }

  lemma {:induction false} EmbeddedTermsNoJoins(reg: Registry, f: Field, fieldName: string, byPath: bool, terms: seq<Term>, i: nat, acc: Clauses)
    requires i <= |terms| && !Referencing(f) && OneSegment(terms) && acc.joins == []
    requires TermsFrom(reg, f, fieldName, byPath, terms, i, acc).Ok?
    ensures TermsFrom(reg, f, fieldName, byPath, terms, i, acc).value.joins == []
    decreases |terms| - i
  {
    if i < |terms| {
      EmbeddedTermNoJoin(reg, f, fieldName, byPath, acc, terms[i]);
      EmbeddedTermsNoJoins(reg, f, fieldName, byPath, terms, i + 1, TermStep(reg, f, fieldName, byPath, acc, terms[i]).value);
    }
  }

  /** A filter on an embedded object whose terms name its own fields needs no join. */
  lemma EmbeddedFilterNoJoins(reg: Registry, filter: FilterField, f: Field, fieldName: string, byPath: bool)
    requires !Referencing(f) && OneSegment(filter.terms)
    requires QueryTerms(reg, filter, f, fieldName, byPath).Ok?
    ensures QueryTerms(reg, filter, f, fieldName, byPath).value.joins == []
  {
    var ft := FilteredType(f.ty);
    if !IsScalarLike(ft) && IsObjectLike(ft) {
      EmbeddedTermsNoJoins(reg, f, fieldName, byPath, filter.terms, 0, Clauses([], []));
    }
  }

  /** An `Author` type with a name and an age, and a `Book` field embedding one. */
  function AuthorRegistry(): Registry {
    var name := Field("name", STRING, None, false, false, map[]);
    var age := Field("age", INT, None, false, false, map[]);
    map["Author" := Entry(ObjectType("Author", [name, age], map[]), "authors", None)]
  }

  function AuthorField(): Field {
    Field("author", Object("Author"), Some(Relation(true, "author")), false, false, map[])
  }

  /** The filter `author: {terms: [{path: "name", value: "Ann"}, {path: "age", operator: GT, value: 30}]}`. */
  function NameAndAge(): FilterField {
    FilterField(None, Undefined, [Term("name", None, Str("Ann")), Term("age", Some(GT), Num(30))])
  }

  lemma NoDot(s: string)
    requires forall i :: 0 <= i < |s| ==> s[i] != '.'
    ensures !Contains(s, '.')
  {
  }

  /** The two clauses of `NameAndAge`, and what the filter's terms step through to reach them. */
  lemma NameAndAgeClauses()
    ensures var reg, f := AuthorRegistry(), AuthorField();
            && FilterJoins(reg, f, "author", []) == Ok([])
            && FieldsOf(reg, OfType(f.ty), "fieldType") == Ok(reg["Author"].gqltype.fields)
            && FieldNamed(reg["Author"].gqltype.fields, "name") == Some(reg["Author"].gqltype.fields[0])
            && FieldNamed(reg["Author"].gqltype.fields, "age") == Some(reg["Author"].gqltype.fields[1])
            && BuildMatchesClause("author.name", None, DateAware(STRING, Str("Ann"))) == Ok(map["author.name" := Str("Ann")])
            && BuildMatchesClause("author.age", Some(GT), DateAware(INT, Num(30))) == Ok(map["author.age" := Obj(map["$gt" := Num(30)])])
            && !Contains("name", '.') && !Contains("age", '.')
            && "author" + "." + StoredName("name") == "author.name"
            && "author" + "." + StoredName("age") == "author.age"
  {
    NoDot("name");
    NoDot("age");
    var fs := AuthorRegistry()["Author"].gqltype.fields;
    assert FieldNamed(fs, "name") == Some(fs[0]);
    assert FieldNamed(fs, "age") == Some(fs[1]);
    assert !EndsWith("author.name", "_id");
    assert !IsIsoDateType(STRING) && !IsIsoDateType(INT);
  }

  /** A one-segment term on an embedded filter puts its clause under the key of the keying. */
  lemma OneSegmentStep(reg: Registry, f: Field, fieldName: string, byPath: bool, acc: Clauses, term: Term, pf: Field, c: Doc)
    requires !Referencing(f) && !Contains(term.path, '.')
    requires FieldsOf(reg, OfType(f.ty), "fieldType").Ok?
    requires FieldNamed(FieldsOf(reg, OfType(f.ty), "fieldType").value, term.path) == Some(pf)
    requires BuildMatchesClause(fieldName + "." + StoredName(pf.name), term.operator, DateAware(pf.ty, term.value)) == Ok(c)
    ensures TermStep(reg, f, fieldName, byPath, acc, term)
            == Ok(Clauses(acc.joins, Put(acc.matches, if byPath then fieldName + "." + StoredName(pf.name) else fieldName, c)))
  {
  }

  lemma TwoTerms(reg: Registry, f: Field, fieldName: string, byPath: bool, terms: seq<Term>, once: Clauses, twice: Clauses)
    requires |terms| == 2 && IsObjectLike(FilteredType(f.ty))
    requires TermStep(reg, f, fieldName, byPath, Clauses([], []), terms[0]) == Ok(once)
    requires TermStep(reg, f, fieldName, byPath, once, terms[1]) == Ok(twice)
    ensures QueryTerms(reg, FilterField(None, Undefined, terms), f, fieldName, byPath) == Ok(twice)
  {
    assert TermsFrom(reg, f, fieldName, byPath, terms, 2, twice) == Ok(twice);
    assert TermsFrom(reg, f, fieldName, byPath, terms, 1, once) == Ok(twice);
  }

  /**
   * As written, the second term's clause replaces the first under the key
   * `author`, so the name condition never reaches the query.
   */
  lemma AsWrittenDropsTerm()
    ensures QueryTerms(AuthorRegistry(), NameAndAge(), AuthorField(), "author", false)
            == Ok(Clauses([], [("author", map["author.age" := Obj(map["$gt" := Num(30)])])]))
  {
    NameAndAgeClauses();
    var reg, f, terms := AuthorRegistry(), AuthorField(), NameAndAge().terms;
    var fs := reg["Author"].gqltype.fields;
    var nameClause, ageClause := map["author.name" := Str("Ann")], map["author.age" := Obj(map["$gt" := Num(30)])];
    var once := Clauses([], [("author", nameClause)]);
    OneSegmentStep(reg, f, "author", false, Clauses([], []), terms[0], fs[0], nameClause);
    assert Put([], "author", nameClause) == once.matches;
    var twice := Clauses([], [("author", ageClause)]);
    OneSegmentStep(reg, f, "author", false, once, terms[1], fs[1], ageClause);
    assert Put(once.matches, "author", ageClause) == twice.matches;
    TwoTerms(reg, f, "author", false, terms, once, twice);
  }

  /** Keyed by path, both conditions are kept. */
  lemma ByPathKeepsBothTerms()
    ensures QueryTerms(AuthorRegistry(), NameAndAge(), AuthorField(), "author", true)
            == Ok(Clauses([], [("author.name", map["author.name" := Str("Ann")]),
                               ("author.age", map["author.age" := Obj(map["$gt" := Num(30)])])]))
  {
    NameAndAgeClauses();
    var reg, f, terms := AuthorRegistry(), AuthorField(), NameAndAge().terms;
    var fs := reg["Author"].gqltype.fields;
    var nameClause, ageClause := map["author.name" := Str("Ann")], map["author.age" := Obj(map["$gt" := Num(30)])];
    var once := Clauses([], [("author.name", nameClause)]);
    OneSegmentStep(reg, f, "author", true, Clauses([], []), terms[0], fs[0], nameClause);
    assert Put([], "author.name", nameClause) == once.matches;
    var twice := Clauses([], [("author.name", nameClause), ("author.age", ageClause)]);
    OneSegmentStep(reg, f, "author", true, once, terms[1], fs[1], ageClause);
    assert "author.name" != "author.age" by { assert "author.name"[7] != "author.age"[7]; }
    assert Put(once.matches, "author.age", ageClause) == twice.matches;
    TwoTerms(reg, f, "author", true, terms, once, twice);
  }

  /** No later term constrains the same path as term `j`. */
  predicate LastOnPath(fieldName: string, terms: seq<Term>, j: nat) {
    forall k :: j < k < |terms| ==> TermKey(fieldName, terms[k]) != TermKey(fieldName, terms[j])
  }

  /**
   * Keyed by path, the single-segment terms from `i` on each leave a clause
   * under their own path: earlier keys are kept, a key no term constrains
   * keeps its clause, and each path holds the clause of its last term.
   */
  lemma {:induction false} TermsKeyedByPath(reg: Registry, f: Field, fieldName: string, terms: seq<Term>, i: nat, acc: Clauses)
    requires i <= |terms| && OneSegment(terms)
    requires TermsFrom(reg, f, fieldName, true, terms, i, acc).Ok?
    ensures var r := TermsFrom(reg, f, fieldName, true, terms, i, acc).value.matches;
            && KeysOf(acc.matches) <= KeysOf(r)
            && (forall j :: i <= j < |terms| ==> SegmentClause(reg, f, fieldName, terms[j]).Ok? && TermKey(fieldName, terms[j]) in KeysOf(r))
            && (forall k :: (forall j :: i <= j < |terms| ==> TermKey(fieldName, terms[j]) != k) ==> ValueOf(r, k) == ValueOf(acc.matches, k))
            && (forall j :: i <= j < |terms| && LastOnPath(fieldName, terms, j) && SegmentClause(reg, f, fieldName, terms[j]).Ok? ==>
                  ValueOf(r, TermKey(fieldName, terms[j])) == Some(SegmentClause(reg, f, fieldName, terms[j]).value.1))
    decreases |terms| - i
  {
    if i < |terms| {
      var term := terms[i];
      assert !Contains(term.path, '.');
      var next := TermStep(reg, f, fieldName, true, acc, term).value;
      var key, c := TermKey(fieldName, term), SegmentClause(reg, f, fieldName, term).value.1;
      assert next.matches == Put(acc.matches, key, c);
      TermsKeyedByPath(reg, f, fieldName, terms, i + 1, next);
      PutKeys(acc.matches, key, c);
      var r := TermsFrom(reg, f, fieldName, true, terms, i, acc).value.matches;
      assert r == TermsFrom(reg, f, fieldName, true, terms, i + 1, next).value.matches;
      PutValues(acc.matches, key, c, key);
      forall k | forall j :: i <= j < |terms| ==> TermKey(fieldName, terms[j]) != k
        ensures ValueOf(r, k) == ValueOf(acc.matches, k)
      {
        assert TermKey(fieldName, terms[i]) != k;
        PutValues(acc.matches, key, c, k);
      }
      if LastOnPath(fieldName, terms, i) {
        assert forall j :: i + 1 <= j < |terms| ==> TermKey(fieldName, terms[j]) != key;
      }
      forall j | i + 1 <= j < |terms| && LastOnPath(fieldName, terms, j) && SegmentClause(reg, f, fieldName, terms[j]).Ok?
        ensures ValueOf(r, TermKey(fieldName, terms[j])) == Some(SegmentClause(reg, f, fieldName, terms[j]).value.1)
      {
      }
    }
  }

  /**
   * The corrected keying loses no term: for a filter on an object whose
   * terms each name one field, every term's path is a key of the result,
   * holding the clause of the last term on that path.
   */
  lemma ByPathKeepsEveryTerm(reg: Registry, filter: FilterField, f: Field, fieldName: string)
    requires IsObjectLike(FilteredType(f.ty)) && OneSegment(filter.terms)
    requires QueryTerms(reg, filter, f, fieldName, true).Ok?
    ensures var r := QueryTerms(reg, filter, f, fieldName, true).value.matches;
            && (forall j :: 0 <= j < |filter.terms| ==> TermKey(fieldName, filter.terms[j]) in KeysOf(r))
            && (forall j ::
                  (0 <= j < |filter.terms| && LastOnPath(fieldName, filter.terms, j) && SegmentClause(reg, f, fieldName, filter.terms[j]).Ok?) ==>
                  ValueOf(r, TermKey(fieldName, filter.terms[j])) == Some(SegmentClause(reg, f, fieldName, filter.terms[j]).value.1))
  {
    assert !IsScalarLike(FilteredType(f.ty));
    TermsKeyedByPath(reg, f, fieldName, filter.terms, 0, Clauses([], []));
  }

  /** The body of the `forEach` over the segments of a dotted path (src/index.js:1014-1081), keyed by path. */
  method StepSegment(reg: Registry, operator: Option<Operator>, w: Walk, seg: string) returns (r: Result<Walk, Thrown>)
    ensures r == SegmentStep(reg, operator, true, w, seg)
  {
    var current, alias, embedded, value := w.current, w.alias, w.embedded, w.value;
    var joins, matches := w.clauses.joins, w.clauses.matches;
    if !(current.Object? && current.typeName in reg) {
      return Err(NotObjectType("currentGQLPathFieldType"));
    }
    var pathField := FieldNamed(reg[current.typeName].gqltype.fields, seg);
    if pathField.None? {
      return Err(MISSING_FIELD);
    }
    var pf := pathField.value;
    if ScalarField(pf.ty) {
      value := DateAware(pf.ty, value);
      var path := Dotted(alias, embedded) + "." + StoredName(seg);
      var clause := BuildMatchesClause(path, operator, value);
      if clause.Err? {
        return Err(clause.error);
      }
      matches := Put(matches, path, clause.value);
      embedded := "";
    } else if HopField(pf.ty) {
      var next := OfType(pf.ty);
      current := next;
      if Referencing(pf) {
        var currentPath := Dotted(alias, embedded);
        alias := HopAlias(alias, embedded, seg);
        embedded := "";
        var from := CollectionOf(reg, next);
        if from.Err? {
          return Err(from.error);
        }
        if !HasAlias(joins, alias) {
          joins := joins + [HopJoin(pf, currentPath, alias, from.value)];
        }
      } else {
        embedded := Extend(embedded, seg);
      }
    }
    return Ok(Walk(current, alias, embedded, value, Clauses(joins, matches)));
  }

  /** The `forEach` over the segments of a dotted path (src/index.js:1013-1082), keyed by path. */
  method WalkPath(reg: Registry, operator: Option<Operator>, segs: seq<string>, start: Walk) returns (r: Result<Walk, Thrown>)
    ensures r == WalkFrom(reg, operator, true, segs, 0, start)
  {
    ghost var whole := WalkFrom(reg, operator, true, segs, 0, start);
    var w := start;
    var i := 0;
    while i < |segs|
      invariant i <= |segs|
      invariant whole == WalkFrom(reg, operator, true, segs, i, w)
    {
      var next := StepSegment(reg, operator, w, segs[i]);
      if next.Err? {
        return Err(next.error);
      }
      w := next.value;
      i := i + 1;
    }
    return Ok(w);
  }

  /** The body of the `forEach` over the terms of an object filter (src/index.js:962-1083), keyed by path. */
  method AddTerm(reg: Registry, f: Field, fieldName: string, acc: Clauses, term: Term) returns (r: Result<Clauses, Thrown>)
    ensures r == TermStep(reg, f, fieldName, true, acc, term)
  {
    var fieldType := OfType(f.ty);
    var joins := acc.joins;
    if Referencing(f) {
      var model := CollectionOf(reg, fieldType);
      if model.Err? {
        return Err(model.error);
      }
      if !HasAlias(joins, fieldName) {
        joins := joins + [FilterJoin(f, fieldName, model.value)];
      }
    }
    if !Contains(term.path, '.') {
      if !(fieldType.Object? && fieldType.typeName in reg) {
        return Err(NotObjectType("fieldType"));
      }
      var field := FieldNamed(reg[fieldType.typeName].gqltype.fields, term.path);
      if field.None? {
        return Err(MISSING_FIELD);
      }
      var pf := field.value;
      var path := fieldName + "." + StoredName(pf.name);
      var clause := BuildMatchesClause(path, term.operator, DateAware(pf.ty, term.value));
      if clause.Err? {
        return Err(clause.error);
      }
      return Ok(Clauses(joins, Put(acc.matches, path, clause.value)));
    }
    var walked := WalkPath(reg, term.operator, Split(term.path, '.'), Walk(fieldType, fieldName, "", term.value, Clauses(joins, acc.matches)));
    if walked.Err? {
      return Err(walked.error);
    }
    return Ok(walked.value.clauses);
  }

  /** `buildQueryTerms(filterField, qlField, fieldName)`, keyed by path. */
  method BuildQueryTerms(reg: Registry, filter: FilterField, f: Field, fieldName: string) returns (r: Result<Clauses, Thrown>)
    ensures r == QueryTerms(reg, filter, f, fieldName, true)
  {
    var fieldType := FilteredType(f.ty);
    if IsScalarLike(fieldType) {
      var path := StoredName(fieldName);
      var clause := BuildMatchesClause(path, filter.operator, DateAware(fieldType, filter.value));
      if clause.Err? {
        return Err(clause.error);
      }
      return Ok(Clauses([], [(path, clause.value)]));
    }
    if !IsObjectLike(fieldType) {
      return Ok(Clauses([], []));
    }
    ghost var whole := QueryTerms(reg, filter, f, fieldName, true);
    var acc := Clauses([], []);
    var i := 0;
    while i < |filter.terms|
      invariant i <= |filter.terms|
      invariant whole == TermsFrom(reg, f, fieldName, true, filter.terms, i, acc)
    {
      var next := AddTerm(reg, f, fieldName, acc, filter.terms[i]);
      if next.Err? {
        return Err(next.error);
      }
      acc := next.value;
      i := i + 1;
    }
    return Ok(acc);
  }
}
