/**
 * `buildMatchesClause` (src/index.js:886-929): one filter term
 * `{operator, value}` on a document path, lowered to the query engine's
 * condition for that path. What a condition means is given by
 * `Satisfies`, a small model of how the engine tests one value against a
 * condition, over an ordering and a regular-expression matcher it takes as
 * parameters.
 */
module Matching {
  import opened Wrappers
  import opened Values
  import opened Errors

  /** The `QLOperator` enum (src/const/QLOperator.js). */
  datatype Operator = EQ | LT | GT | LTE | GTE | BTW | NE | IN | NIN | LIKE

  /** The engine's operator for the four ordering comparisons and NE. */
  function CompareKey(op: Operator): string
    requires op in {LT, GT, LTE, GTE, NE}
  {
    match op
    case LT => "$lt"
    case GT => "$gt"
    case LTE => "$lte"
    case GTE => "$gte"
    case NE => "$ne"
  }

  /** `value[i]`: TypeError on `undefined` and `null`, undefined when there is no such element. */
  function At(v: Value, i: nat): (r: Result<Value, Thrown>)
    ensures r.Err? <==> v == Undefined || v == Null
    ensures v.Arr? && i < |v.items| ==> r == Ok(v.items[i])
  {
    match v
    case Undefined => Err(Unknown(PropertyRead("undefined", NatToString(i))))
    case Null => Err(Unknown(PropertyRead("null", NatToString(i))))
    case Arr(items) => Ok(if i < |items| then items[i] else Undefined)
    case Str(s) => Ok(if i < |s| then Str([s[i]]) else Undefined)
    case Obj(m) => Ok(Lookup(m, NatToString(i)))
    case _ => Ok(Undefined)
  }

  /** `value.foreach` on what is not an array. */
  const NOT_A_FUNCTION: string := "value.forEach is not a function"

  /** The `$in`/`$nin` list: element-wise ObjectIds for a truthy value on an `_id` path. */
  function IdList(fieldname: string, value: Value): (r: Result<Value, Thrown>)
    ensures !(Truthy(value) && EndsWith(fieldname, "_id")) ==> r == Ok(value)
    ensures Truthy(value) && EndsWith(fieldname, "_id") && !value.Arr? ==> r == Err(Unknown(NOT_A_FUNCTION))
    ensures Truthy(value) && EndsWith(fieldname, "_id") && value.Arr? ==>
              && r.Ok? && r.value.Arr? && |r.value.items| == |value.items|
              && forall i :: 0 <= i < |value.items| ==> r.value.items[i] == ObjectId(value.items[i])
  {
    if !(Truthy(value) && EndsWith(fieldname, "_id")) then Ok(value)
    else if !value.Arr? then Err(Unknown(NOT_A_FUNCTION))
    else Ok(Arr(seq(|value.items|, i requires 0 <= i < |value.items| => ObjectId(value.items[i]))))
  }

  /** The condition a term puts on its path. */
  function Condition(fieldname: string, operator: Option<Operator>, value: Value): Result<Value, Thrown> {
    match operator.GetOr(EQ)
    case EQ => Ok(if EndsWith(fieldname, "_id") then ObjectId(value) else value)
    case BTW =>
      (match (At(value, 0), At(value, 1))
       case (Ok(low), Ok(high)) => Ok(Obj(map["$gte" := low, "$lte" := high]))
       case (Err(e), _) => Err(e)
       case (_, Err(e)) => Err(e))
    case IN =>
      (match IdList(fieldname, value)
       case Ok(list) => Ok(Obj(map["$in" := list]))
       case Err(e) => Err(e))
    case NIN =>
      (match IdList(fieldname, value)
       case Ok(list) => Ok(Obj(map["$nin" := list]))
       case Err(e) => Err(e))
    case LIKE => Ok(Obj(map["$regex" := Str(".*" + JsString(value) + ".*")]))
    case LT => Ok(Obj(map[CompareKey(LT) := value]))
    case GT => Ok(Obj(map[CompareKey(GT) := value]))
    case LTE => Ok(Obj(map[CompareKey(LTE) := value]))
    case GTE => Ok(Obj(map[CompareKey(GTE) := value]))
    case NE => Ok(Obj(map[CompareKey(NE) := value]))
  }

  /** `buildMatchesClause(fieldname, operator, value)`: a document with the one key `fieldname`. */
  function BuildMatchesClause(fieldname: string, operator: Option<Operator>, value: Value): (r: Result<Doc, Thrown>)
    ensures r.Ok? ==> r.value.Keys == {fieldname}
    ensures r.Err? <==>
              || (operator == Some(BTW) && (value == Undefined || value == Null))
              || (operator in {Some(IN), Some(NIN)} && Truthy(value) && EndsWith(fieldname, "_id") && !value.Arr?)
    ensures (operator.None? || operator == Some(EQ)) ==>
              r == Ok(map[fieldname := if EndsWith(fieldname, "_id") then ObjectId(value) else value])
    ensures operator.Some? && operator.value in {LT, GT, LTE, GTE, NE} ==>
              r == Ok(map[fieldname := Obj(map[CompareKey(operator.value) := value])])
    ensures operator == Some(BTW) && value.Arr? && |value.items| >= 2 ==>
              r == Ok(map[fieldname := Obj(map["$gte" := value.items[0], "$lte" := value.items[1]])])
    ensures operator == Some(LIKE) ==> r == Ok(map[fieldname := Obj(map["$regex" := Str(".*" + JsString(value) + ".*")])])
  {
    match Condition(fieldname, operator, value)
    case Ok(c) => Ok(map[fieldname := c])
    case Err(e) => Err(e)
  }

  /** The engine's ordering of values: negative, zero or positive. */
  type Ordering = (Value, Value) -> int

  /** The engine's regular-expression test: does the pattern match the string. */
  type Matcher = (string, string) -> bool

  /** A condition made of operators: a non-empty document all of whose keys start with `$`. */
  predicate OperatorDoc(c: Value) {
    c.Obj? && |c.fields| > 0 && forall k :: k in c.fields ==> |k| > 0 && k[0] == '$'
  }

  /** One operator of a condition, checked against the value `x` of a document. */
  predicate OperatorHolds(op: string, v: Value, x: Value, cmp: Ordering, regex: Matcher) {
    if op == "$lt" then cmp(x, v) < 0
    else if op == "$gt" then cmp(x, v) > 0
    else if op == "$lte" then cmp(x, v) <= 0
    else if op == "$gte" then cmp(x, v) >= 0
    else if op == "$ne" then x != v
    else if op == "$in" then v.Arr? && x in v.items
    else if op == "$nin" then v.Arr? && x !in v.items
    else if op == "$regex" then v.Str? && x.Str? && regex(v.s, x.s)
    else false
  }

  /**
   * Whether a (non-array) value `x` satisfies condition `c`: every operator
   * of an operator document holds, any other condition is equality.
   */
  predicate Satisfies(x: Value, c: Value, cmp: Ordering, regex: Matcher) {
    if OperatorDoc(c) then forall k :: k in c.fields ==> OperatorHolds(k, c.fields[k], x, cmp, regex)
    else x == c
  }

  /** The value shapes `Means` is stated for: a BTW pair, an IN/NIN array, an EQ value that is not itself operators. */
  predicate Meaningful(fieldname: string, operator: Option<Operator>, value: Value) {
    if operator.None? || operator.value == EQ then EndsWith(fieldname, "_id") || !OperatorDoc(value)
    else if operator.value == BTW then value.Arr? && |value.items| >= 2
    else if operator.value in {IN, NIN} then value.Arr?
    else true
  }

  /** What the condition built for a path means, operator by operator. */
  predicate Means(fieldname: string, operator: Option<Operator>, value: Value, x: Value, cmp: Ordering, regex: Matcher)
    requires Meaningful(fieldname, operator, value)
  {
    var id := EndsWith(fieldname, "_id");
    if operator.None? || operator.value == EQ then x == (if id then ObjectId(value) else value)
    else
      match operator.value
      case LT => cmp(x, value) < 0
      case GT => cmp(x, value) > 0
      case LTE => cmp(x, value) <= 0
      case GTE => cmp(x, value) >= 0
      case NE => x != value
      case BTW => cmp(x, value.items[0]) >= 0 && cmp(x, value.items[1]) <= 0
      case IN => x in IdList(fieldname, value).value.items
      case NIN => x !in IdList(fieldname, value).value.items
      case LIKE => x.Str? && regex(".*" + JsString(value) + ".*", x.s)
  }

  /** A condition of one operator holds exactly when that operator does. */
  lemma SingleOperator(op: string, v: Value, x: Value, cmp: Ordering, regex: Matcher)
    requires |op| > 0 && op[0] == '$'
    ensures Satisfies(x, Obj(map[op := v]), cmp, regex) <==> OperatorHolds(op, v, x, cmp, regex)
  {
    assert op in map[op := v];
  }

  lemma RangeMeans(low: Value, high: Value, x: Value, cmp: Ordering, regex: Matcher)
    ensures Satisfies(x, Obj(map["$gte" := low, "$lte" := high]), cmp, regex) <==> cmp(x, low) >= 0 && cmp(x, high) <= 0
  {
    var c := map["$gte" := low, "$lte" := high];
    assert "$gte" in c && "$lte" in c;
    assert forall k :: k in c ==> k == "$gte" || k == "$lte";
  }

  lemma EqClauseMeans(fieldname: string, operator: Option<Operator>, value: Value, x: Value, cmp: Ordering, regex: Matcher)
    requires operator.None? || operator == Some(EQ)
    requires Meaningful(fieldname, operator, value)
    ensures BuildMatchesClause(fieldname, operator, value).Ok?
    ensures Satisfies(x, BuildMatchesClause(fieldname, operator, value).value[fieldname], cmp, regex)
            <==> Means(fieldname, operator, value, x, cmp, regex)
  {
  }

  lemma CompareClauseMeans(fieldname: string, op: Operator, value: Value, x: Value, cmp: Ordering, regex: Matcher)
    requires op in {LT, GT, LTE, GTE, NE}
    ensures BuildMatchesClause(fieldname, Some(op), value).Ok?
    ensures Satisfies(x, BuildMatchesClause(fieldname, Some(op), value).value[fieldname], cmp, regex)
            <==> Means(fieldname, Some(op), value, x, cmp, regex)
  {
    SingleOperator(CompareKey(op), value, x, cmp, regex);
  }

  lemma RangeClauseMeans(fieldname: string, value: Value, x: Value, cmp: Ordering, regex: Matcher)
    requires value.Arr? && |value.items| >= 2
    ensures BuildMatchesClause(fieldname, Some(BTW), value).Ok?
    ensures Satisfies(x, BuildMatchesClause(fieldname, Some(BTW), value).value[fieldname], cmp, regex)
            <==> Means(fieldname, Some(BTW), value, x, cmp, regex)
  {
    RangeMeans(value.items[0], value.items[1], x, cmp, regex);
  }

  lemma ListClauseMeans(fieldname: string, op: Operator, value: Value, x: Value, cmp: Ordering, regex: Matcher)
    requires op == IN || op == NIN
    requires value.Arr?
    ensures BuildMatchesClause(fieldname, Some(op), value).Ok?
    ensures Satisfies(x, BuildMatchesClause(fieldname, Some(op), value).value[fieldname], cmp, regex)
            <==> Means(fieldname, Some(op), value, x, cmp, regex)
  {
    var list := IdList(fieldname, value).value;
    if op == IN {
      assert BuildMatchesClause(fieldname, Some(op), value).value[fieldname] == Obj(map["$in" := list]);
      SingleOperator("$in", list, x, cmp, regex);
    } else {
      assert BuildMatchesClause(fieldname, Some(op), value).value[fieldname] == Obj(map["$nin" := list]);
      SingleOperator("$nin", list, x, cmp, regex);
    }
  }

  lemma LikeClauseMeans(fieldname: string, value: Value, x: Value, cmp: Ordering, regex: Matcher)
    ensures BuildMatchesClause(fieldname, Some(LIKE), value).Ok?
    ensures Satisfies(x, BuildMatchesClause(fieldname, Some(LIKE), value).value[fieldname], cmp, regex)
            <==> Means(fieldname, Some(LIKE), value, x, cmp, regex)
  {
    SingleOperator("$regex", Str(".*" + JsString(value) + ".*"), x, cmp, regex);
  }

  /**
   * A document value satisfies the clause built for a term exactly when it
   * is what the term's operator asks for: equal, ordered, in range
   * (`$gte` the first bound and `$lte` the second), in or out of the list
   * (of ObjectIds on an `_id` path), or matched by `.*value.*`.
   */
  lemma ClauseMeans(fieldname: string, operator: Option<Operator>, value: Value, x: Value, cmp: Ordering, regex: Matcher)
    requires Meaningful(fieldname, operator, value)
    ensures BuildMatchesClause(fieldname, operator, value).Ok?
    ensures Satisfies(x, BuildMatchesClause(fieldname, operator, value).value[fieldname], cmp, regex)
            <==> Means(fieldname, operator, value, x, cmp, regex)
  {
    if operator.None? || operator == Some(EQ) {
      EqClauseMeans(fieldname, operator, value, x, cmp, regex);
    } else if operator.value == BTW {
      RangeClauseMeans(fieldname, value, x, cmp, regex);
    } else if operator.value in {IN, NIN} {
      ListClauseMeans(fieldname, operator.value, value, x, cmp, regex);
    } else if operator.value == LIKE {
      LikeClauseMeans(fieldname, value, x, cmp, regex);
    } else {
      CompareClauseMeans(fieldname, operator.value, value, x, cmp, regex);
    }
  }
}
