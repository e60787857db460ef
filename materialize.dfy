/**
 * `materializeModel` (src/index.js:348-424): the document a create or an
 * update writes, built from the GraphQL arguments field by field, with the
 * collection deltas of referenced lists split out and every registered
 * validator consulted on the way.
 *
 * A validator is known only by identity. What it does when invoked is given
 * by a `Verdicts` function: `None` when it returns, `Some(e)` when it throws
 * `e`. A `Run` records every validator invocation in the order it happened,
 * together with the outcome.
 */
module Materialize {
  import opened Wrappers
  import opened Values
  import opened Schema
  import opened Errors

  /** One validator invocation and the arguments it received. */
  datatype Call =
    | FieldCheck(validator: Validator, entity: string, field: string, value: Value)
    | EntityCheck(validator: Validator, entity: string, args: Value, modelArgs: Doc)

  type Verdicts = Call -> Option<Thrown>

  /** The invocations made, in order, and what the computation returned or threw. */
  datatype Run<T> = Run(calls: seq<Call>, result: Result<T, Thrown>)

  /** `{modelArgs, collectionFields}`; collection fields keep the order their fields are declared in. */
  datatype Materialized = Materialized(modelArgs: Doc, collectionFields: seq<(string, Value)>)

  /** What one field adds to the result: a document key, a collection delta, or nothing. */
  datatype Contribution = SetKey(key: string, value: Value) | Collect(name: string, delta: Value) | NoEffect

  /** Reading `.modelArgs` of the `null` an embedded falsy value materialises to. */
  const NULL_MODEL_ARGS: string := "Cannot read properties of null (reading 'modelArgs')"
  /** `for...of` over an embedded list value that is neither an array nor a string. */
  const NOT_ITERABLE: string := "args[fieldEntryName] is not iterable"

  predicate IsTypeError(e: Thrown) {
    e == Unknown(NULL_MODEL_ARGS) || e == Unknown(NOT_ITERABLE)
  }

  /** Every invocation in `cs` returned normally. */
  predicate Passed(verdict: Verdicts, cs: seq<Call>) {
    forall j :: 0 <= j < |cs| ==> verdict(cs[j]).None?
  }

  /**
   * Validation fails fast: a successful run saw every validator return, and
   * a failed run either stopped at the first validator that threw, with its
   * error, or crashed on a TypeError after every validator returned.
   */
  predicate FailFast<T>(verdict: Verdicts, r: Run<T>) {
    match r.result
    case Ok(_) => Passed(verdict, r.calls)
    case Err(e) =>
      || (|r.calls| > 0 && Passed(verdict, r.calls[..|r.calls| - 1]) && verdict(r.calls[|r.calls| - 1]) == Some(e))
      || (IsTypeError(e) && Passed(verdict, r.calls))
  }

  lemma PassedCons(verdict: Verdicts, c: Call, cs: seq<Call>)
    ensures Passed(verdict, [c] + cs) <==> verdict(c).None? && Passed(verdict, cs)
  {
    if verdict(c).None? && Passed(verdict, cs) {
      forall j | 0 <= j < |[c] + cs| ensures verdict(([c] + cs)[j]).None? {
        if j > 0 { assert ([c] + cs)[j] == cs[j - 1]; }
      }
    }
    if Passed(verdict, [c] + cs) {
      assert ([c] + cs)[0] == c;
      forall j | 0 <= j < |cs| ensures verdict(cs[j]).None? {
        assert ([c] + cs)[j + 1] == cs[j];
      }
    }
  }

  function Prepend<T>(cs: seq<Call>, r: Run<T>): Run<T> {
    Run(cs + r.calls, r.result)
  }

  lemma PrependFailFast<T>(verdict: Verdicts, cs: seq<Call>, r: Run<T>)
    requires Passed(verdict, cs) && FailFast(verdict, r)
    ensures FailFast(verdict, Prepend(cs, r))
  {
    var all := cs + r.calls;
    if r.result.Err? && !IsTypeError(r.result.error) {
      assert all[..|all| - 1] == cs + r.calls[..|r.calls| - 1];
    }
  }

  /** A failed run seen as a run of another result type. */
  function Rethrow<T, U>(r: Run<T>): (s: Run<U>)
    requires r.result.Err?
    ensures s.calls == r.calls && s.result == Err(r.result.error)
  {
    Run(r.calls, Err(r.result.error))
  }

  /** A validation run `r` over `cs` stops at the first throwing validator, or sees them all. */
  predicate StopsAtFirstThrow(verdict: Verdicts, cs: seq<Call>, r: Run<()>) {
    && r.calls <= cs && FailFast(verdict, r)
    && (r.result.Ok? <==> Passed(verdict, cs))
    && (r.result.Ok? ==> r.calls == cs)
    && (r.result.Err? ==> |r.calls| > 0 && verdict(r.calls[|r.calls| - 1]) == Some(r.result.error))
  }

  /** A validator that returns, followed by a run that stops at the first throw, is such a run. */
  lemma StopsAtFirstThrowCons(verdict: Verdicts, c: Call, cs: seq<Call>, rest: Run<()>)
    requires verdict(c).None? && StopsAtFirstThrow(verdict, cs, rest)
    ensures StopsAtFirstThrow(verdict, [c] + cs, Prepend([c], rest))
  {
    PassedCons(verdict, c, cs);
    PassedCons(verdict, c, []);
    assert [c] + [] == [c];
    PrependFailFast(verdict, [c], rest);
    var r := Prepend([c], rest);
    if r.result.Err? {
      assert r.calls[|r.calls| - 1] == rest.calls[|rest.calls| - 1];
    }
  }

  /** A validator that throws first ends the run with its error. */
  lemma StopsAtFirstThrowHead(verdict: Verdicts, cs: seq<Call>)
    requires |cs| > 0 && verdict(cs[0]).Some?
    ensures StopsAtFirstThrow(verdict, cs, Run([cs[0]], Err(verdict(cs[0]).value)))
  {
    assert [cs[0]] <= cs;
    assert [cs[0]][..0] == [];
  }

  /**
   * Invoking the validators `cs` one after the other, as the `for...of`
   * loops with `await validator.validate(...)` do (src/index.js:361-363,
   * 411-413): the first one that throws ends the loop.
   */
  function Checks(verdict: Verdicts, cs: seq<Call>): (r: Run<()>)
    ensures r.calls <= cs && FailFast(verdict, r)
    ensures r.result.Ok? <==> Passed(verdict, cs)
    ensures r.result.Ok? ==> r.calls == cs
    ensures r.result.Err? ==> |r.calls| > 0 && verdict(r.calls[|r.calls| - 1]) == Some(r.result.error)
  {
    if |cs| == 0 then Run([], Ok(()))
    else match verdict(cs[0])
      case Some(e) =>
        StopsAtFirstThrowHead(verdict, cs);
        Run([cs[0]], Err(e))
      case None =>
        var rest := Checks(verdict, cs[1..]);
        assert cs == [cs[0]] + cs[1..];
        StopsAtFirstThrowCons(verdict, cs[0], cs[1..], rest);
        Prepend([cs[0]], rest)
  }

  /** The field-level invocations: every validator registered for the operation, given the argument value. */
  function FieldCalls(entity: string, f: Field, value: Value, op: Operation): (cs: seq<Call>)
    ensures |cs| == |ValidatorsFor(f.validations, op)|
    ensures forall j :: 0 <= j < |cs| ==> cs[j] == FieldCheck(ValidatorsFor(f.validations, op)[j], entity, f.name, value)
  {
    var vs := ValidatorsFor(f.validations, op);
    seq(|vs|, j requires 0 <= j < |vs| => FieldCheck(vs[j], entity, f.name, value))
  }

  /** The entity-level invocations, given the arguments and the document built from them. */
  function EntityCalls(t: ObjectType, args: Value, modelArgs: Doc, op: Operation): (cs: seq<Call>)
    ensures |cs| == |ValidatorsFor(t.validations, op)|
    ensures forall j :: 0 <= j < |cs| ==> cs[j] == EntityCheck(ValidatorsFor(t.validations, op)[j], t.name, args, modelArgs)
  {
    var vs := ValidatorsFor(t.validations, op);
    seq(|vs|, j requires 0 <= j < |vs| => EntityCheck(vs[j], t.name, args, modelArgs))
  }

  /** The first component of the termination measure: a string never holds an argument object. */
  function Tag(v: Value): nat {
    if v.Str? then 0 else 1
  }

  function Apply(acc: Materialized, c: Contribution): Materialized {
    match c
    case SetKey(k, v) => acc.(modelArgs := acc.modelArgs[k := v])
    case Collect(n, d) => acc.(collectionFields := acc.collectionFields + [(n, d)])
    case NoEffect => acc
  }

  /**
   * `materializeModel(args, gqltype, linkToParent, operation)` for the
   * registered type `tn`: `null` for falsy arguments; otherwise the field
   * loop, then `linkToParent` (which writes the parent's id under the
   * connection field), then the entity-level validators.
   */
  function Materialize(reg: Registry, verdict: Verdicts, args: Value, tn: string,
                       link: Option<(string, Value)>, op: Operation): (r: Run<Option<Materialized>>)
    requires WellFormed(reg) && tn in reg
    ensures FailFast(verdict, r)
    ensures !Truthy(args) ==> r == Run([], Ok(None))
    ensures Truthy(args) ==> r.result != Ok(None)
    decreases Tag(args), args, 4, 0
  {
    if !Truthy(args) then Run([], Ok(None))
    else
      var fields := FieldsFrom(reg, verdict, args, tn, op, 0, Materialized(map[], []));
      match fields.result
      case Err(e) => Run(fields.calls, Err(e))
      case Ok(m) =>
        var linked := if link.Some? then m.modelArgs[link.value.0 := link.value.1] else m.modelArgs;
        var checked := Checks(verdict, EntityCalls(reg[tn].gqltype, args, linked, op));
        PrependFailFast(verdict, fields.calls, checked);
        Run(fields.calls + checked.calls,
            if checked.result.Err? then Err(checked.result.error)
            else Ok(Some(Materialized(linked, m.collectionFields))))
  }

  /** The field loop from field `i` on, starting from the partial result `acc`. */
  function FieldsFrom(reg: Registry, verdict: Verdicts, args: Value, tn: string, op: Operation,
                      i: nat, acc: Materialized): (r: Run<Materialized>)
    requires WellFormed(reg) && tn in reg && i <= |reg[tn].gqltype.fields|
    ensures FailFast(verdict, r)
    decreases Tag(args), args, 3, |reg[tn].gqltype.fields| - i
  {
    var fs := reg[tn].gqltype.fields;
    if i == |fs| then Run([], Ok(acc))
    else
      var step := FieldStep(reg, verdict, args, reg[tn].gqltype.name, op, fs[i]);
      match step.result
      case Err(e) => Run(step.calls, Err(e))
      case Ok(c) =>
        var rest := FieldsFrom(reg, verdict, args, tn, op, i + 1, Apply(acc, c));
        PrependFailFast(verdict, step.calls, rest);
        Prepend(step.calls, rest)
  }

  /** One iteration of the field loop: the field's validators first, then its value (src/index.js:358-421). */
  function FieldStep(reg: Registry, verdict: Verdicts, args: Value, entity: string, op: Operation,
                     f: Field): (r: Run<Contribution>)
    requires WellFormed(reg) && Referenced(f.ty) <= reg.Keys
    ensures FailFast(verdict, r)
    ensures var checked := Checks(verdict, FieldCalls(entity, f, Get(args, f.name), op));
            && checked.calls <= r.calls
            && (checked.result.Err? ==> r == Rethrow(checked))
    ensures r.result.Ok? && r.result.value.SetKey? ==> r.result.value.key == WrittenKey(f)
    ensures r.result.Ok? && r.result.value.Collect? ==> r.result.value.name == f.name
    decreases Tag(args), args, 2, 0
  {
    var checked := Checks(verdict, FieldCalls(entity, f, Get(args, f.name), op));
    if checked.result.Err? then Rethrow(checked)
    else
      var handled := Contribute(reg, verdict, args, op, f);
      PrependFailFast(verdict, checked.calls, handled);
      Prepend(checked.calls, handled)
  }

  /** The value part of one iteration (src/index.js:366-420). */
  function Contribute(reg: Registry, verdict: Verdicts, args: Value, op: Operation, f: Field): (r: Run<Contribution>)
    requires WellFormed(reg) && Referenced(f.ty) <= reg.Keys
    ensures FailFast(verdict, r)
    ensures r.result.Ok? && r.result.value.SetKey? ==> r.result.value.key == WrittenKey(f)
    ensures r.result.Ok? && r.result.value.Collect? ==> r.result.value.name == f.name
    decreases Tag(args), args, 1, 0
  {
    var v := Get(args, f.name);
    if IsEmpty(v) then Run([], Ok(NoEffect))
    else if IsScalarLike(f.ty) then Run([], Ok(SetKey(f.name, v)))
    else if IsObjectLike(f.ty) then
      if f.relation.None? then Run([], Ok(NoEffect))
      else if !f.relation.value.embedded then
        Run([], Ok(SetKey(f.relation.value.connectionField, ObjectId(Get(v, "id")))))
      else
        GetSmaller(args, f.name);
        assert Referenced(Unwrap(f.ty)) == {ObjectName(f.ty)};
        var sub := Materialize(reg, verdict, v, ObjectName(f.ty), None, op);
        match sub.result
        case Err(e) => Run(sub.calls, Err(e))
        case Ok(None) => Run(sub.calls, Err(Unknown(NULL_MODEL_ARGS)))
        case Ok(Some(m)) => Run(sub.calls, Ok(SetKey(f.name, Obj(m.modelArgs))))
    else if f.ty.List? then
      if f.ty.elem.Object? && f.relation.Some? then
        if !f.relation.value.embedded then Run([], Ok(Collect(f.name, v)))
        else if !Iterable(v) then Run([], Err(Unknown(NOT_ITERABLE)))
        else
          var entries := ElementsFrom(reg, verdict, args, op, f, 0, []);
          match entries.result
          case Err(e) => Run(entries.calls, Err(e))
          case Ok(es) => Run(entries.calls, Ok(SetKey(f.name, Arr(es))))
      else if f.ty.elem.Scalar? || f.ty.elem.Enum? then Run([], Ok(SetKey(f.name, v)))
      else Run([], Ok(NoEffect))
    else Run([], Ok(NoEffect))
  }

  /** The element loop of an embedded list, from element `k` on (src/index.js:395-401). */
  function ElementsFrom(reg: Registry, verdict: Verdicts, args: Value, op: Operation, f: Field,
                        k: nat, entries: seq<Value>): (r: Run<seq<Value>>)
    requires WellFormed(reg) && Referenced(f.ty) <= reg.Keys
    requires f.ty.List? && f.ty.elem.Object?
    requires !IsEmpty(Get(args, f.name)) && Iterable(Get(args, f.name)) && k <= Count(Get(args, f.name))
    ensures FailFast(verdict, r)
    decreases Tag(args), args, 0, Count(Get(args, f.name)) - k
  {
    var v := Get(args, f.name);
    if k == Count(v) then Run([], Ok(entries))
    else
      GetSmaller(args, f.name);
      assert Referenced(f.ty.elem) == {f.ty.elem.typeName};
      var sub := Materialize(reg, verdict, Element(v, k), f.ty.elem.typeName, None, op);
      match sub.result
      case Err(e) => Run(sub.calls, Err(e))
      case Ok(None) => Run(sub.calls, Err(Unknown(NULL_MODEL_ARGS)))
      case Ok(Some(m)) =>
        var rest := ElementsFrom(reg, verdict, args, op, f, k + 1, entries + [Obj(m.modelArgs)]);
        PrependFailFast(verdict, sub.calls, rest);
        Prepend(sub.calls, rest)
  }

  // The loops of `materializeModel`, each proved to compute its specification.

  lemma PrependPrepend<T>(a: seq<Call>, b: seq<Call>, r: Run<T>)
    ensures Prepend(a, Prepend(b, r)) == Prepend(a + b, r)
  {
    assert a + (b + r.calls) == (a + b) + r.calls;
  }

  /** Validation stops at the first validator that throws. */
  lemma {:induction false} ChecksStopsAt(verdict: Verdicts, cs: seq<Call>, k: nat)
    requires k < |cs| && Passed(verdict, cs[..k]) && verdict(cs[k]).Some?
    ensures Checks(verdict, cs) == Run(cs[..k + 1], Err(verdict(cs[k]).value))
    decreases k
  {
    if k == 0 {
      assert cs[..1] == [cs[0]];
    } else {
      assert cs[..k][0] == cs[0];
      assert verdict(cs[0]).None?;
      var tail := cs[1..];
      var pre := tail[..k - 1];
      assert Passed(verdict, pre) by {
        forall j | 0 <= j < |pre| ensures verdict(pre[j]).None? {
          assert pre[j] == cs[..k][j + 1];
        }
      }
      ChecksStopsAt(verdict, tail, k - 1);
      assert Checks(verdict, cs) == Prepend([cs[0]], Checks(verdict, tail));
      assert [cs[0]] + tail[..k] == cs[..k + 1];
    }
  }

  /** Validation that meets no throwing validator invokes them all. */
  lemma ChecksAllPass(verdict: Verdicts, cs: seq<Call>)
    requires Passed(verdict, cs)
    ensures Checks(verdict, cs) == Run(cs, Ok(()))
  {
    var r := Checks(verdict, cs);
    assert r.result.Ok?;
    var u: () := r.result.value;
    assert u == ();
  }

  /** `for (const validator of validators) await validator.validate(...)`. */
  method RunValidators(verdict: Verdicts, cs: seq<Call>) returns (r: Run<()>)
    ensures r == Checks(verdict, cs)
  {
    var k := 0;
    while k < |cs|
      invariant 0 <= k <= |cs|
      invariant Passed(verdict, cs[..k])
    {
      var thrown := verdict(cs[k]);
      if thrown.Some? {
        ChecksStopsAt(verdict, cs, k);
        return Run(cs[..k + 1], Err(thrown.value));
      }
      assert cs[..k + 1] == cs[..k] + [cs[k]];
      k := k + 1;
    }
    assert cs[..k] == cs;
    ChecksAllPass(verdict, cs);
    return Run(cs, Ok(()));
  }

  method MaterializeModel(reg: Registry, verdict: Verdicts, args: Value, tn: string,
                          link: Option<(string, Value)>, op: Operation) returns (r: Run<Option<Materialized>>)
    requires WellFormed(reg) && tn in reg
    ensures r == Materialize(reg, verdict, args, tn, link, op)
    decreases Tag(args), args, 4, 0
  {
    if !Truthy(args) {
      return Run([], Ok(None));
    }
    var fields := MaterializeFields(reg, verdict, args, tn, op);
    FoldFieldRuns(reg, verdict, args, tn, op, 0, Materialized(map[], []));
    assert FieldRuns(reg, verdict, args, tn, op)[0..] == FieldRuns(reg, verdict, args, tn, op);
    if fields.result.Err? {
      return Rethrow(fields);
    }
    var modelArgs := fields.result.value.modelArgs;
    if link.Some? {
      modelArgs := modelArgs[link.value.0 := link.value.1];
    }
    var checked := RunValidators(verdict, EntityCalls(reg[tn].gqltype, args, modelArgs, op));
    if checked.result.Err? {
      return Run(fields.calls + checked.calls, Err(checked.result.error));
    }
    return Run(fields.calls + checked.calls, Ok(Some(Materialized(modelArgs, fields.result.value.collectionFields))));
  }

  /** One step of the field loop. */
  lemma FieldsFromStep(reg: Registry, verdict: Verdicts, args: Value, tn: string, op: Operation,
                       i: nat, acc: Materialized)
    requires WellFormed(reg) && tn in reg
    requires i < |reg[tn].gqltype.fields|
    ensures var step := FieldStep(reg, verdict, args, reg[tn].gqltype.name, op, reg[tn].gqltype.fields[i]);
            && (step.result.Err? ==> FieldsFrom(reg, verdict, args, tn, op, i, acc) == Rethrow(step))
            && (step.result.Ok? ==>
                  FieldsFrom(reg, verdict, args, tn, op, i, acc)
                  == Prepend(step.calls, FieldsFrom(reg, verdict, args, tn, op, i + 1, Apply(acc, step.result.value))))
  {
  }

  /** What each field of the type contributes on its own, validators included, in declaration order. */
  function FieldRuns(reg: Registry, verdict: Verdicts, args: Value, tn: string, op: Operation): (runs: seq<Run<Contribution>>)
    requires WellFormed(reg) && tn in reg
    ensures |runs| == |reg[tn].gqltype.fields|
    ensures forall j :: 0 <= j < |runs| ==>
              runs[j] == FieldStep(reg, verdict, args, reg[tn].gqltype.name, op, reg[tn].gqltype.fields[j])
  {
    var fs := reg[tn].gqltype.fields;
    seq(|fs|, j requires 0 <= j < |fs| => FieldStep(reg, verdict, args, reg[tn].gqltype.name, op, fs[j]))
  }

  /** The field runs folded into `acc`, the first that throws ending the fold. */
  function Fold(runs: seq<Run<Contribution>>, acc: Materialized): Run<Materialized> {
    if |runs| == 0 then Run([], Ok(acc))
    else match runs[0].result
      case Err(e) => Run(runs[0].calls, Err(e))
      case Ok(c) => Prepend(runs[0].calls, Fold(runs[1..], Apply(acc, c)))
  }

  /** One step of the fold, seen from a loop that has made the invocations `calls` so far. */
  lemma FoldStep(runs: seq<Run<Contribution>>, i: nat, acc: Materialized, calls: seq<Call>)
    requires i < |runs|
    ensures runs[i].result.Err? ==>
              Prepend(calls, Fold(runs[i..], acc)) == Run(calls + runs[i].calls, Err(runs[i].result.error))
    ensures runs[i].result.Ok? ==>
              Prepend(calls, Fold(runs[i..], acc))
              == Prepend(calls + runs[i].calls, Fold(runs[i + 1..], Apply(acc, runs[i].result.value)))
  {
    assert runs[i..][0] == runs[i] && runs[i..][1..] == runs[i + 1..];
    if runs[i].result.Ok? {
      PrependPrepend(calls, runs[i].calls, Fold(runs[i + 1..], Apply(acc, runs[i].result.value)));
    }
  }

  /** Folding the fields' own runs is the field loop. */
  lemma {:induction false} FoldFieldRuns(reg: Registry, verdict: Verdicts, args: Value, tn: string, op: Operation,
                                         i: nat, acc: Materialized)
    requires WellFormed(reg) && tn in reg && i <= |reg[tn].gqltype.fields|
    ensures Fold(FieldRuns(reg, verdict, args, tn, op)[i..], acc) == FieldsFrom(reg, verdict, args, tn, op, i, acc)
    decreases |reg[tn].gqltype.fields| - i
  {
    var runs := FieldRuns(reg, verdict, args, tn, op);
    if i < |runs| {
      assert runs[i..][0] == runs[i] && runs[i..][1..] == runs[i + 1..];
      FieldsFromStep(reg, verdict, args, tn, op, i, acc);
      if runs[i].result.Ok? {
        FoldFieldRuns(reg, verdict, args, tn, op, i + 1, Apply(acc, runs[i].result.value));
      }
    }
  }

  /** The field loop of `materializeModel` (src/index.js:358-421). */
  method MaterializeFields(reg: Registry, verdict: Verdicts, args: Value, tn: string, op: Operation)
    returns (r: Run<Materialized>)
    requires WellFormed(reg) && tn in reg
    ensures r == Fold(FieldRuns(reg, verdict, args, tn, op), Materialized(map[], []))
    decreases Tag(args), args, 3, 0
  {
    var fs := reg[tn].gqltype.fields;
    ghost var runs := FieldRuns(reg, verdict, args, tn, op);
    var calls: seq<Call> := [];
    var acc := Materialized(map[], []);
    var i := 0;
    ghost var whole := Fold(runs, acc);
    assert runs[0..] == runs;
    while i < |fs|
      invariant 0 <= i <= |fs|
      invariant whole == Prepend(calls, Fold(runs[i..], acc))
    {
      var step := MaterializeField(reg, verdict, args, reg[tn].gqltype.name, op, fs[i]);
      FoldStep(runs, i, acc, calls);
      if step.result.Err? {
        return Run(calls + step.calls, Err(step.result.error));
      }
      calls := calls + step.calls;
      acc := Apply(acc, step.result.value);
      i := i + 1;
    }
    assert calls + [] == calls;
    return Run(calls, Ok(acc));
  }

  /** One iteration of the field loop: the field's validators, then its value. */
  method MaterializeField(reg: Registry, verdict: Verdicts, args: Value, entity: string, op: Operation,
                          f: Field) returns (r: Run<Contribution>)
    requires WellFormed(reg) && Referenced(f.ty) <= reg.Keys
    ensures r == FieldStep(reg, verdict, args, entity, op, f)
    decreases Tag(args), args, 2, 0
  {
    var checked := RunValidators(verdict, FieldCalls(entity, f, Get(args, f.name), op));
    if checked.result.Err? {
      return Rethrow(checked);
    }
    var handled := ContributeField(reg, verdict, args, op, f);
    return Prepend(checked.calls, handled);
  }

  method ContributeField(reg: Registry, verdict: Verdicts, args: Value, op: Operation, f: Field)
    returns (r: Run<Contribution>)
    requires WellFormed(reg) && Referenced(f.ty) <= reg.Keys
    ensures r == Contribute(reg, verdict, args, op, f)
    decreases Tag(args), args, 1, 0
  {
    var v := Get(args, f.name);
    r := Run([], Ok(NoEffect));
    if IsEmpty(v) {
      return;
    }
    if IsScalarLike(f.ty) {
      r := Run([], Ok(SetKey(f.name, v)));
    } else if IsObjectLike(f.ty) {
      if f.relation.Some? {
        if !f.relation.value.embedded {
          r := Run([], Ok(SetKey(f.relation.value.connectionField, ObjectId(Get(v, "id")))));
        } else {
          GetSmaller(args, f.name);
          assert Referenced(Unwrap(f.ty)) == {ObjectName(f.ty)};
          var sub := MaterializeModel(reg, verdict, v, ObjectName(f.ty), None, op);
          if sub.result.Err? {
            r := Run(sub.calls, Err(sub.result.error));
          } else if sub.result.value.None? {
            r := Run(sub.calls, Err(Unknown(NULL_MODEL_ARGS)));
          } else {
            r := Run(sub.calls, Ok(SetKey(f.name, Obj(sub.result.value.value.modelArgs))));
          }
        }
      }
    } else if f.ty.List? {
      if f.ty.elem.Object? && f.relation.Some? {
        if !f.relation.value.embedded {
          r := Run([], Ok(Collect(f.name, v)));
        } else if !Iterable(v) {
          r := Run([], Err(Unknown(NOT_ITERABLE)));
        } else {
          var entries := MaterializeElements(reg, verdict, args, op, f);
          if entries.result.Err? {
            r := Run(entries.calls, Err(entries.result.error));
          } else {
            r := Run(entries.calls, Ok(SetKey(f.name, Arr(entries.result.value))));
          }
        }
      } else if f.ty.elem.Scalar? || f.ty.elem.Enum? {
        r := Run([], Ok(SetKey(f.name, v)));
      }
    }
  }

  lemma ElementsFromStep(reg: Registry, verdict: Verdicts, args: Value, op: Operation, f: Field,
                         k: nat, entries: seq<Value>)
    requires WellFormed(reg) && Referenced(f.ty) <= reg.Keys
    requires f.ty.List? && f.ty.elem.Object? && f.ty.elem.typeName in reg
    requires !IsEmpty(Get(args, f.name)) && Iterable(Get(args, f.name)) && k < Count(Get(args, f.name))
    ensures var sub := Materialize(reg, verdict, Element(Get(args, f.name), k), f.ty.elem.typeName, None, op);
            && (sub.result.Err? ==> ElementsFrom(reg, verdict, args, op, f, k, entries) == Run(sub.calls, Err(sub.result.error)))
            && (sub.result == Ok(None) ==>
                  ElementsFrom(reg, verdict, args, op, f, k, entries) == Run(sub.calls, Err(Unknown(NULL_MODEL_ARGS))))
            && (sub.result.Ok? && sub.result.value.Some? ==>
                  ElementsFrom(reg, verdict, args, op, f, k, entries)
                  == Prepend(sub.calls, ElementsFrom(reg, verdict, args, op, f, k + 1,
                                                     entries + [Obj(sub.result.value.value.modelArgs)])))
  {
  }

  method MaterializeElements(reg: Registry, verdict: Verdicts, args: Value, op: Operation, f: Field)
    returns (r: Run<seq<Value>>)
    requires WellFormed(reg) && Referenced(f.ty) <= reg.Keys
    requires f.ty.List? && f.ty.elem.Object?
    requires !IsEmpty(Get(args, f.name)) && Iterable(Get(args, f.name))
    ensures r == ElementsFrom(reg, verdict, args, op, f, 0, [])
    decreases Tag(args), args, 0, 0
  {
    var v := Get(args, f.name);
    var calls: seq<Call> := [];
    var entries: seq<Value> := [];
    var k := 0;
    GetSmaller(args, f.name);
    assert Referenced(f.ty.elem) == {f.ty.elem.typeName};
    ghost var whole := ElementsFrom(reg, verdict, args, op, f, 0, []);
    while k < Count(v)
      invariant 0 <= k <= Count(v)
      invariant whole == Prepend(calls, ElementsFrom(reg, verdict, args, op, f, k, entries))
    {
      ElementsFromStep(reg, verdict, args, op, f, k, entries);
      var sub := MaterializeModel(reg, verdict, Element(v, k), f.ty.elem.typeName, None, op);
      if sub.result.Err? {
        return Run(calls + sub.calls, Err(sub.result.error));
      }
      if sub.result.value.None? {
        return Run(calls + sub.calls, Err(Unknown(NULL_MODEL_ARGS)));
      }
      var next := entries + [Obj(sub.result.value.value.modelArgs)];
      PrependPrepend(calls, sub.calls, ElementsFrom(reg, verdict, args, op, f, k + 1, next));
      calls := calls + sub.calls;
      entries := next;
      k := k + 1;
    }
    assert calls + [] == calls;
    return Run(calls, Ok(entries));
  }

  // What a successful materialisation contains.

  predicate Succeeds(reg: Registry, verdict: Verdicts, args: Value, tn: string,
                     link: Option<(string, Value)>, op: Operation)
    requires WellFormed(reg) && tn in reg
  {
    var r := Materialize(reg, verdict, args, tn, link, op);
    r.result.Ok? && r.result.value.Some?
  }

  function Built(reg: Registry, verdict: Verdicts, args: Value, tn: string,
                 link: Option<(string, Value)>, op: Operation): Materialized
    requires WellFormed(reg) && tn in reg && Succeeds(reg, verdict, args, tn, link, op)
  {
    Materialize(reg, verdict, args, tn, link, op).result.value.value
  }

  /**
   * Field `k` of `tn` is the only writer of its document key: no other field
   * writes the same key and the parent link, if any, writes another one.
   */
  predicate Isolated(reg: Registry, tn: string, link: Option<(string, Value)>, k: nat) {
    && WellFormed(reg) && tn in reg && k < |reg[tn].gqltype.fields|
    && DistinctKeys(reg[tn].gqltype.fields)
    && (link.None? || link.value.0 != WrittenKey(reg[tn].gqltype.fields[k]))
  }

  /** One step of the field loop that succeeds: its field's contribution, applied. */
  lemma FieldsStepOk(reg: Registry, verdict: Verdicts, args: Value, tn: string, op: Operation,
                     i: nat, acc: Materialized)
    requires WellFormed(reg) && tn in reg && i < |reg[tn].gqltype.fields|
    requires FieldsFrom(reg, verdict, args, tn, op, i, acc).result.Ok?
    ensures var f := reg[tn].gqltype.fields[i];
            var step := FieldStep(reg, verdict, args, reg[tn].gqltype.name, op, f);
            && step.result.Ok?
            && (step.result.value.SetKey? ==> step.result.value.key == WrittenKey(f))
            && FieldsFrom(reg, verdict, args, tn, op, i + 1, Apply(acc, step.result.value)).result
               == FieldsFrom(reg, verdict, args, tn, op, i, acc).result
  {
    FieldsFromStep(reg, verdict, args, tn, op, i, acc);
  }

  /** Keys no remaining field writes keep what they had. */
  lemma {:induction false} FieldsKeep(reg: Registry, verdict: Verdicts, args: Value, tn: string, op: Operation,
                                      i: nat, acc: Materialized, key: string)
    requires WellFormed(reg) && tn in reg && i <= |reg[tn].gqltype.fields|
    requires forall j :: i <= j < |reg[tn].gqltype.fields| ==> WrittenKey(reg[tn].gqltype.fields[j]) != key
    requires FieldsFrom(reg, verdict, args, tn, op, i, acc).result.Ok?
    ensures var m := FieldsFrom(reg, verdict, args, tn, op, i, acc).result.value;
            && (key in m.modelArgs <==> key in acc.modelArgs)
            && (key in acc.modelArgs ==> m.modelArgs[key] == acc.modelArgs[key])
    decreases |reg[tn].gqltype.fields| - i
  {
    if i < |reg[tn].gqltype.fields| {
      FieldsStepOk(reg, verdict, args, tn, op, i, acc);
      var c := FieldStep(reg, verdict, args, reg[tn].gqltype.name, op, reg[tn].gqltype.fields[i]).result.value;
      FieldsKeep(reg, verdict, args, tn, op, i + 1, Apply(acc, c), key);
    }
  }

  /** Collection deltas are only ever appended. */
  lemma {:induction false} FieldsAppend(reg: Registry, verdict: Verdicts, args: Value, tn: string, op: Operation,
                                        i: nat, acc: Materialized)
    requires WellFormed(reg) && tn in reg && i <= |reg[tn].gqltype.fields|
    requires FieldsFrom(reg, verdict, args, tn, op, i, acc).result.Ok?
    ensures acc.collectionFields <= FieldsFrom(reg, verdict, args, tn, op, i, acc).result.value.collectionFields
    decreases |reg[tn].gqltype.fields| - i
  {
    if i < |reg[tn].gqltype.fields| {
      FieldsStepOk(reg, verdict, args, tn, op, i, acc);
      var c := FieldStep(reg, verdict, args, reg[tn].gqltype.name, op, reg[tn].gqltype.fields[i]).result.value;
      FieldsAppend(reg, verdict, args, tn, op, i + 1, Apply(acc, c));
      assert acc.collectionFields <= Apply(acc, c).collectionFields;
    }
  }

  /** The final document holds exactly what field `k` contributed under its key. */
  lemma {:induction false} FieldsFinal(reg: Registry, verdict: Verdicts, args: Value, tn: string, op: Operation,
                                       i: nat, acc: Materialized, k: nat)
    requires WellFormed(reg) && tn in reg && i <= k < |reg[tn].gqltype.fields|
    requires DistinctKeys(reg[tn].gqltype.fields)
    requires WrittenKey(reg[tn].gqltype.fields[k]) !in acc.modelArgs
    requires FieldsFrom(reg, verdict, args, tn, op, i, acc).result.Ok?
    ensures var f := reg[tn].gqltype.fields[k];
            var c := FieldStep(reg, verdict, args, reg[tn].gqltype.name, op, f);
            var m := FieldsFrom(reg, verdict, args, tn, op, i, acc).result.value;
            && c.result.Ok?
            && (c.result.value.SetKey? ==> WrittenKey(f) in m.modelArgs && m.modelArgs[WrittenKey(f)] == c.result.value.value)
            && (!c.result.value.SetKey? ==> WrittenKey(f) !in m.modelArgs)
            && (c.result.value.Collect? ==> (f.name, c.result.value.delta) in m.collectionFields)
    decreases |reg[tn].gqltype.fields| - i
  {
    var fs := reg[tn].gqltype.fields;
    FieldsFromStep(reg, verdict, args, tn, op, i, acc);
    var step := FieldStep(reg, verdict, args, reg[tn].gqltype.name, op, fs[i]);
    var next := Apply(acc, step.result.value);
    if i == k {
      FieldsKeep(reg, verdict, args, tn, op, i + 1, next, WrittenKey(fs[k]));
      FieldsAppend(reg, verdict, args, tn, op, i + 1, next);
      if step.result.value.Collect? {
        assert (fs[k].name, step.result.value.delta) in next.collectionFields;
      }
    } else {
      FieldsFinal(reg, verdict, args, tn, op, i + 1, next, k);
    }
  }

  /**
   * The entity-level validators run last, after `linkToParent` has written
   * the parent's id, and see the document exactly as it is returned
   * (src/index.js:405-415).
   */
  lemma EntityChecksSeeLinkedDocument(reg: Registry, verdict: Verdicts, args: Value, tn: string,
                                      link: Option<(string, Value)>, op: Operation)
    requires WellFormed(reg) && tn in reg && Succeeds(reg, verdict, args, tn, link, op)
    ensures var r := Materialize(reg, verdict, args, tn, link, op);
            var m := Built(reg, verdict, args, tn, link, op);
            var fields := FieldsFrom(reg, verdict, args, tn, op, 0, Materialized(map[], []));
            && fields.result.Ok?
            && m.collectionFields == fields.result.value.collectionFields
            && (link.None? ==> m.modelArgs == fields.result.value.modelArgs)
            && (link.Some? ==> m.modelArgs == fields.result.value.modelArgs[link.value.0 := link.value.1])
            && r.calls == fields.calls + EntityCalls(reg[tn].gqltype, args, m.modelArgs, op)
            && Passed(verdict, r.calls)
  {
    var r := Materialize(reg, verdict, args, tn, link, op);
    var fields := FieldsFrom(reg, verdict, args, tn, op, 0, Materialized(map[], []));
    var m := Built(reg, verdict, args, tn, link, op);
    var checked := Checks(verdict, EntityCalls(reg[tn].gqltype, args, m.modelArgs, op));
    assert checked.result.Ok?;
  }

  /** What field `k` contributed, as it stands in the returned document. */
  lemma FieldOutcome(reg: Registry, verdict: Verdicts, args: Value, tn: string,
                     link: Option<(string, Value)>, op: Operation, k: nat)
    requires Isolated(reg, tn, link, k) && Succeeds(reg, verdict, args, tn, link, op)
    ensures var f := reg[tn].gqltype.fields[k];
            var c := FieldStep(reg, verdict, args, reg[tn].gqltype.name, op, f);
            var m := Built(reg, verdict, args, tn, link, op);
            && c.result.Ok?
            && (c.result.value.SetKey? ==> WrittenKey(f) in m.modelArgs && m.modelArgs[WrittenKey(f)] == c.result.value.value)
            && (!c.result.value.SetKey? ==> WrittenKey(f) !in m.modelArgs)
            && (c.result.value.Collect? ==> (f.name, c.result.value.delta) in m.collectionFields)
  {
    EntityChecksSeeLinkedDocument(reg, verdict, args, tn, link, op);
    FieldsFinal(reg, verdict, args, tn, op, 0, Materialized(map[], []), k);
  }

  /**
   * A scalar or enum field is copied as given, and skipped when empty:
   * `undefined`, `null` and `""` are dropped while `false` and `0` are kept
   * (src/index.js:346, 366-371).
   */
  lemma ScalarFieldCopied(reg: Registry, verdict: Verdicts, args: Value, tn: string,
                          link: Option<(string, Value)>, op: Operation, k: nat)
    requires Isolated(reg, tn, link, k) && Succeeds(reg, verdict, args, tn, link, op)
    requires IsScalarLike(reg[tn].gqltype.fields[k].ty)
    ensures var f := reg[tn].gqltype.fields[k];
            var v := Get(args, f.name);
            var m := Built(reg, verdict, args, tn, link, op).modelArgs;
            && (f.name in m <==> !IsEmpty(v))
            && (f.name in m ==> m[f.name] == v)
            && (v == Bool(false) || v == Num(0) ==> f.name in m)
  {
    FieldOutcome(reg, verdict, args, tn, link, op, k);
  }

  /** A list of scalars or enums is copied as given (src/index.js:403-405). */
  lemma ScalarListCopied(reg: Registry, verdict: Verdicts, args: Value, tn: string,
                         link: Option<(string, Value)>, op: Operation, k: nat)
    requires Isolated(reg, tn, link, k) && Succeeds(reg, verdict, args, tn, link, op)
    requires var t := reg[tn].gqltype.fields[k].ty; t.List? && (t.elem.Scalar? || t.elem.Enum?)
    ensures var f := reg[tn].gqltype.fields[k];
            var v := Get(args, f.name);
            var m := Built(reg, verdict, args, tn, link, op).modelArgs;
            && (f.name in m <==> !IsEmpty(v))
            && (f.name in m ==> m[f.name] == v)
  {
    FieldOutcome(reg, verdict, args, tn, link, op, k);
  }

  /**
   * A referenced (non-embedded) object is stored under its connection field
   * as `ObjectId(value.id)` (src/index.js:374-377).
   */
  lemma ReferenceStoredAsId(reg: Registry, verdict: Verdicts, args: Value, tn: string,
                            link: Option<(string, Value)>, op: Operation, k: nat)
    requires Isolated(reg, tn, link, k) && Succeeds(reg, verdict, args, tn, link, op)
    requires var f := reg[tn].gqltype.fields[k];
             IsObjectLike(f.ty) && f.relation.Some? && !f.relation.value.embedded
    ensures var f := reg[tn].gqltype.fields[k];
            var v := Get(args, f.name);
            var key := f.relation.value.connectionField;
            var m := Built(reg, verdict, args, tn, link, op).modelArgs;
            && (key in m <==> !IsEmpty(v))
            && (key in m ==> m[key] == ObjectId(Get(v, "id")))
  {
    FieldOutcome(reg, verdict, args, tn, link, op, k);
  }

  /** An object field without a relation only draws a configuration warning (src/index.js:384-386). */
  lemma UnrelatedObjectDropped(reg: Registry, verdict: Verdicts, args: Value, tn: string,
                               link: Option<(string, Value)>, op: Operation, k: nat)
    requires Isolated(reg, tn, link, k) && Succeeds(reg, verdict, args, tn, link, op)
    requires var f := reg[tn].gqltype.fields[k]; IsObjectLike(f.ty) && f.relation.None?
    ensures reg[tn].gqltype.fields[k].name !in Built(reg, verdict, args, tn, link, op).modelArgs
  {
    FieldOutcome(reg, verdict, args, tn, link, op, k);
  }

  /**
   * An embedded object is materialised recursively, without a parent link,
   * and its document stored under the field's name (src/index.js:378-382).
   */
  lemma EmbeddedObjectMaterialised(reg: Registry, verdict: Verdicts, args: Value, tn: string,
                                   link: Option<(string, Value)>, op: Operation, k: nat)
    requires Isolated(reg, tn, link, k) && Succeeds(reg, verdict, args, tn, link, op)
    requires var f := reg[tn].gqltype.fields[k];
             IsObjectLike(f.ty) && f.relation.Some? && f.relation.value.embedded
    ensures var f := reg[tn].gqltype.fields[k];
            var v := Get(args, f.name);
            var m := Built(reg, verdict, args, tn, link, op).modelArgs;
            && ObjectName(f.ty) in reg
            && (f.name in m <==> !IsEmpty(v))
            && (f.name in m ==>
                  && Truthy(v)
                  && Succeeds(reg, verdict, v, ObjectName(f.ty), None, op)
                  && m[f.name] == Obj(Built(reg, verdict, v, ObjectName(f.ty), None, op).modelArgs))
  {
    var f := reg[tn].gqltype.fields[k];
    assert Referenced(f.ty) <= reg.Keys;
    FieldOutcome(reg, verdict, args, tn, link, op, k);
    EmbeddedObjectStep(reg, verdict, args, reg[tn].gqltype.name, op, f);
  }

  /** What the step of an embedded object field contributes when it succeeds. */
  lemma EmbeddedObjectStep(reg: Registry, verdict: Verdicts, args: Value, entity: string, op: Operation, f: Field)
    requires WellFormed(reg) && Referenced(f.ty) <= reg.Keys
    requires IsObjectLike(f.ty) && f.relation.Some? && f.relation.value.embedded
    requires FieldStep(reg, verdict, args, entity, op, f).result.Ok?
    ensures ObjectName(f.ty) in reg && WrittenKey(f) == f.name
    ensures var c := FieldStep(reg, verdict, args, entity, op, f).result.value;
            var v := Get(args, f.name);
            && (IsEmpty(v) ==> c.NoEffect?)
            && (!IsEmpty(v) ==>
                  && Truthy(v)
                  && Succeeds(reg, verdict, v, ObjectName(f.ty), None, op)
                  && c == SetKey(f.name, Obj(Built(reg, verdict, v, ObjectName(f.ty), None, op).modelArgs)))
  {
    assert Referenced(Unwrap(f.ty)) == {ObjectName(f.ty)};
  }

  /**
   * A referenced list is not written to the document: its value is kept,
   * under the field's name, as a collection delta (src/index.js:390-392).
   */
  lemma ReferenceListCollected(reg: Registry, verdict: Verdicts, args: Value, tn: string,
                               link: Option<(string, Value)>, op: Operation, k: nat)
    requires Isolated(reg, tn, link, k) && Succeeds(reg, verdict, args, tn, link, op)
    requires var f := reg[tn].gqltype.fields[k];
             f.ty.List? && f.ty.elem.Object? && f.relation.Some? && !f.relation.value.embedded
    ensures var f := reg[tn].gqltype.fields[k];
            var v := Get(args, f.name);
            var built := Built(reg, verdict, args, tn, link, op);
            && f.name !in built.modelArgs
            && (!IsEmpty(v) ==> (f.name, v) in built.collectionFields)
  {
    FieldOutcome(reg, verdict, args, tn, link, op, k);
  }

  /** Element `j` of `v`, materialised as an `n` without a parent link, gives the document `e`. */
  predicate ElementMaterialised(reg: Registry, verdict: Verdicts, v: Value, n: string, op: Operation,
                                j: nat, e: Value)
    requires WellFormed(reg) && n in reg && Iterable(v) && j < Count(v)
  {
    Succeeds(reg, verdict, Element(v, j), n, None, op) && e == Obj(Built(reg, verdict, Element(v, j), n, None, op).modelArgs)
  }

  /** One step of the element loop that succeeds. */
  lemma ElementsStepOk(reg: Registry, verdict: Verdicts, args: Value, op: Operation, f: Field,
                       k: nat, entries: seq<Value>)
    requires WellFormed(reg) && Referenced(f.ty) <= reg.Keys
    requires f.ty.List? && f.ty.elem.Object?
    requires !IsEmpty(Get(args, f.name)) && Iterable(Get(args, f.name)) && k < Count(Get(args, f.name))
    requires ElementsFrom(reg, verdict, args, op, f, k, entries).result.Ok?
    ensures f.ty.elem.typeName in reg
    ensures var v := Get(args, f.name);
            var n := f.ty.elem.typeName;
            && Succeeds(reg, verdict, Element(v, k), n, None, op)
            && ElementsFrom(reg, verdict, args, op, f, k + 1,
                            entries + [Obj(Built(reg, verdict, Element(v, k), n, None, op).modelArgs)]).result
               == ElementsFrom(reg, verdict, args, op, f, k, entries).result
  {
    assert Referenced(f.ty.elem) == {f.ty.elem.typeName};
  }

  /** The element loop yields one document per element, after those it started with. */
  lemma {:induction false} ElementsShape(reg: Registry, verdict: Verdicts, args: Value, op: Operation, f: Field,
                                         k: nat, entries: seq<Value>)
    requires WellFormed(reg) && Referenced(f.ty) <= reg.Keys
    requires f.ty.List? && f.ty.elem.Object?
    requires !IsEmpty(Get(args, f.name)) && Iterable(Get(args, f.name)) && k <= Count(Get(args, f.name))
    requires ElementsFrom(reg, verdict, args, op, f, k, entries).result.Ok?
    ensures var es := ElementsFrom(reg, verdict, args, op, f, k, entries).result.value;
            |es| == |entries| + Count(Get(args, f.name)) - k && es[..|entries|] == entries
    decreases Count(Get(args, f.name)) - k
  {
    var v := Get(args, f.name);
    if k < Count(v) {
      ElementsStepOk(reg, verdict, args, op, f, k, entries);
      var next := entries + [Obj(Built(reg, verdict, Element(v, k), f.ty.elem.typeName, None, op).modelArgs)];
      ElementsShape(reg, verdict, args, op, f, k + 1, next);
      var es := ElementsFrom(reg, verdict, args, op, f, k, entries).result.value;
      assert es[..|entries|] == next[..|entries|];
    }
  }

  lemma {:induction false} ElementsAll(reg: Registry, verdict: Verdicts, args: Value, op: Operation, f: Field,
                                       k: nat, entries: seq<Value>)
    requires WellFormed(reg) && Referenced(f.ty) <= reg.Keys
    requires f.ty.List? && f.ty.elem.Object?
    requires !IsEmpty(Get(args, f.name)) && Iterable(Get(args, f.name)) && k <= Count(Get(args, f.name))
    requires ElementsFrom(reg, verdict, args, op, f, k, entries).result.Ok?
    ensures var v := Get(args, f.name);
            var es := ElementsFrom(reg, verdict, args, op, f, k, entries).result.value;
            && f.ty.elem.typeName in reg
            && |es| == |entries| + Count(v) - k
            && forall j :: |entries| <= j < |es| ==>
                 ElementMaterialised(reg, verdict, v, f.ty.elem.typeName, op, j - |entries| + k, es[j])
    decreases Count(Get(args, f.name)) - k
  {
    var v := Get(args, f.name);
    assert Referenced(f.ty.elem) == {f.ty.elem.typeName};
    ElementsShape(reg, verdict, args, op, f, k, entries);
    if k < Count(v) {
      ElementsStepOk(reg, verdict, args, op, f, k, entries);
      var next := entries + [Obj(Built(reg, verdict, Element(v, k), f.ty.elem.typeName, None, op).modelArgs)];
      ElementsAll(reg, verdict, args, op, f, k + 1, next);
      ElementsShape(reg, verdict, args, op, f, k + 1, next);
      var es := ElementsFrom(reg, verdict, args, op, f, k, entries).result.value;
      assert es[|entries|] == es[..|next|][|entries|];
    }
  }

  /** What the step of an embedded list field contributes when it succeeds. */
  lemma EmbeddedListStep(reg: Registry, verdict: Verdicts, args: Value, entity: string, op: Operation, f: Field)
    requires WellFormed(reg) && Referenced(f.ty) <= reg.Keys
    requires f.ty.List? && f.ty.elem.Object? && f.relation.Some? && f.relation.value.embedded
    requires FieldStep(reg, verdict, args, entity, op, f).result.Ok?
    ensures f.ty.elem.typeName in reg
    ensures var c := FieldStep(reg, verdict, args, entity, op, f).result.value;
            var v := Get(args, f.name);
            && (IsEmpty(v) ==> c.NoEffect?)
            && (!IsEmpty(v) ==> Iterable(v) && c.SetKey? && c.key == f.name && c.value.Arr? && |c.value.items| == Count(v))
  {
    assert Referenced(f.ty) == {f.ty.elem.typeName};
    var v := Get(args, f.name);
    if !IsEmpty(v) {
      assert Iterable(v);
      ElementsShape(reg, verdict, args, op, f, 0, []);
    }
  }

  /** Run from the first element, the loop's `j`-th document is element `j` materialised. */
  lemma ElementsFromStart(reg: Registry, verdict: Verdicts, args: Value, op: Operation, f: Field)
    requires WellFormed(reg) && Referenced(f.ty) <= reg.Keys
    requires f.ty.List? && f.ty.elem.Object?
    requires !IsEmpty(Get(args, f.name)) && Iterable(Get(args, f.name))
    requires ElementsFrom(reg, verdict, args, op, f, 0, []).result.Ok?
    ensures var v := Get(args, f.name);
            var es := ElementsFrom(reg, verdict, args, op, f, 0, []).result.value;
            && f.ty.elem.typeName in reg
            && |es| == Count(v)
            && forall j :: 0 <= j < Count(v) ==> ElementMaterialised(reg, verdict, v, f.ty.elem.typeName, op, j, es[j])
  {
    ElementsAll(reg, verdict, args, op, f, 0, []);
  }

  /** Each document an embedded list field contributes is its element, materialised. */
  lemma EmbeddedListElements(reg: Registry, verdict: Verdicts, args: Value, entity: string, op: Operation, f: Field)
    requires WellFormed(reg) && Referenced(f.ty) <= reg.Keys
    requires f.ty.List? && f.ty.elem.Object? && f.relation.Some? && f.relation.value.embedded
    requires FieldStep(reg, verdict, args, entity, op, f).result.Ok? && !IsEmpty(Get(args, f.name))
    ensures f.ty.elem.typeName in reg && Iterable(Get(args, f.name))
    ensures var c := FieldStep(reg, verdict, args, entity, op, f).result.value;
            var v := Get(args, f.name);
            c.SetKey? && c.value.Arr? && |c.value.items| == Count(v) &&
            forall j :: 0 <= j < Count(v) ==> ElementMaterialised(reg, verdict, v, f.ty.elem.typeName, op, j, c.value.items[j])
  {
    EmbeddedListStep(reg, verdict, args, entity, op, f);
    var c := FieldStep(reg, verdict, args, entity, op, f).result.value;
    assert c.value == Arr(ElementsFrom(reg, verdict, args, op, f, 0, []).result.value);
    ElementsFromStart(reg, verdict, args, op, f);
  }

  /**
   * An embedded list is materialised element by element, each element
   * without a parent link, and the documents stored in order under the
   * field's name; success implies the value was an array or a string
   * (src/index.js:393-402).
   */
  lemma EmbeddedListMaterialised(reg: Registry, verdict: Verdicts, args: Value, tn: string,
                                 link: Option<(string, Value)>, op: Operation, k: nat)
    requires Isolated(reg, tn, link, k) && Succeeds(reg, verdict, args, tn, link, op)
    requires var f := reg[tn].gqltype.fields[k];
             f.ty.List? && f.ty.elem.Object? && f.relation.Some? && f.relation.value.embedded
    ensures reg[tn].gqltype.fields[k].ty.elem.typeName in reg
    ensures var f := reg[tn].gqltype.fields[k];
            f.name in Built(reg, verdict, args, tn, link, op).modelArgs <==> !IsEmpty(Get(args, f.name))
    ensures var f := reg[tn].gqltype.fields[k];
            var v := Get(args, f.name);
            var m := Built(reg, verdict, args, tn, link, op).modelArgs;
            f.name in m ==> Iterable(v) && m[f.name].Arr? && |m[f.name].items| == Count(v)
    ensures var f := reg[tn].gqltype.fields[k];
            var v := Get(args, f.name);
            var m := Built(reg, verdict, args, tn, link, op).modelArgs;
            f.name in m && Iterable(v) && m[f.name].Arr? && |m[f.name].items| == Count(v) ==>
              forall j :: 0 <= j < Count(v) ==>
                ElementMaterialised(reg, verdict, v, f.ty.elem.typeName, op, j, m[f.name].items[j])
  {
    var f := reg[tn].gqltype.fields[k];
    assert Referenced(f.ty) <= reg.Keys;
    FieldOutcome(reg, verdict, args, tn, link, op, k);
    EmbeddedListStep(reg, verdict, args, reg[tn].gqltype.name, op, f);
    assert WrittenKey(f) == f.name;
    if !IsEmpty(Get(args, f.name)) {
      EmbeddedListElements(reg, verdict, args, reg[tn].gqltype.name, op, f);
    }
  }
}
