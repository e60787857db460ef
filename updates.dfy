/**
 * The merge step of `onUpdateSubject` (src/index.js:489-507): the
 * materialised update is combined, field by field in declaration order,
 * with the stored document before it is written. An embedded relation
 * with a new value replaces an array by an array and is otherwise spread
 * over the stored value; an explicit `null` on a nullable field asks for
 * the field to be removed through `$unset`.
 */
module Updates {
  import opened Wrappers
  import opened Values
  import opened Schema
  import opened Errors

  /** The update operator that removes fields. */
  const UNSET: string := "$unset"

  /** GraphQL and MongoDB field names cannot start with `$`: no field is called, or written as, `$unset`. */
  predicate NoUnsetField(fs: seq<Field>) {
    forall i :: 0 <= i < |fs| ==> fs[i].name != UNSET && WrittenKey(fs[i]) != UNSET
  }

  predicate EmbeddedRelation(f: Field) {
    f.relation.Some? && f.relation.value.embedded
  }

  /** `args[name] === null` on a field whose type is not NonNull: the field is to be removed. */
  predicate Unsets(f: Field, args: Value) {
    Get(args, f.name) == Null && !f.ty.NonNull?
  }

  /** The names `$unset` lists in a document. */
  function Unsetting(d: Doc): set<string> {
    Spread(Lookup(d, UNSET)).Keys
  }

  /**
   * The new value of an embedded field: an array replaces an array;
   * otherwise `{...old, ...new}`, every key of either, the new value winning.
   */
  function Combined(before: Value, after: Value): (r: Value)
    ensures before.Arr? && after.Arr? ==> r == after
    ensures !(before.Arr? && after.Arr?) ==>
              && r.Obj?
              && r.fields.Keys == Spread(before).Keys + Spread(after).Keys
              && (forall k :: k in Spread(after) ==> r.fields[k] == Spread(after)[k])
              && (forall k :: k in Spread(before) && k !in Spread(after) ==> r.fields[k] == Spread(before)[k])
  {
    if before.Arr? && after.Arr? then after else Obj(Spread(before) + Spread(after))
  }

  /**
   * Adding `name` to `$unset`. As written the source rebuilds `$unset`
   * from nothing for every null field (`accumulate` false); the corrected
   * merge keeps what earlier fields put there (`accumulate` true).
   */
  function AddUnset(d: Doc, name: string, accumulate: bool): Doc {
    var before := if accumulate then Spread(Lookup(d, UNSET)) else map[];
    d[UNSET := Obj(before[name := Str("")])]
  }

  /** One iteration of the `forEach` over the type's fields. */
  function MergeField(f: Field, args: Value, current: Option<Doc>, d: Doc, accumulate: bool): Result<Doc, Thrown> {
    if EmbeddedRelation(f) && current.None? then Err(Unknown(NullRead(f.name)))
    else
      var merged :=
        if EmbeddedRelation(f) && Truthy(Lookup(d, f.name))
        then d[f.name := Combined(Lookup(current.value, f.name), Lookup(d, f.name))]
        else d;
      Ok(if Unsets(f, args) then AddUnset(merged, f.name, accumulate) else merged)
  }

  /** The `forEach` from field `i` on, starting from the document `d`. */
  function MergeFrom(fs: seq<Field>, args: Value, current: Option<Doc>, i: nat, d: Doc, accumulate: bool): Result<Doc, Thrown>
    requires i <= |fs|
    decreases |fs| - i
  {
    if i == |fs| then Ok(d)
    else
      match MergeField(fs[i], args, current, d, accumulate)
      case Err(e) => Err(e)
      case Ok(next) => MergeFrom(fs, args, current, i + 1, next, accumulate)
  }

  /** The merge as the source writes it: `$unset` holds only the last null field. */
  function MergeAsWritten(fs: seq<Field>, args: Value, modified: Doc, current: Option<Doc>): Result<Doc, Thrown> {
    MergeFrom(fs, args, current, 0, modified, false)
  }

  /** The merge with every null nullable field in `$unset`. */
  function Merge(fs: seq<Field>, args: Value, modified: Doc, current: Option<Doc>): Result<Doc, Thrown> {
    MergeFrom(fs, args, current, 0, modified, true)
  }

  /** Two null nullable fields: as written only the second is removed, the corrected merge removes both. */
  lemma AsWrittenUnsetsOnlyLast()
    ensures var fs := [Field("a", STRING, None, false, false, map[]), Field("b", STRING, None, false, false, map[])];
            var args := Obj(map["id" := Str("1"), "a" := Null, "b" := Null]);
            && MergeAsWritten(fs, args, map[], Some(map[])) == Ok(map[UNSET := Obj(map["b" := Str("")])])
            && Merge(fs, args, map[], Some(map[])) == Ok(map[UNSET := Obj(map["a" := Str(""), "b" := Str("")])])
  {
    var fs := [Field("a", STRING, None, false, false, map[]), Field("b", STRING, None, false, false, map[])];
    var args := Obj(map["id" := Str("1"), "a" := Null, "b" := Null]);
    var one: Doc := map[UNSET := Obj(map["a" := Str("")])];
    var last: Doc := map[UNSET := Obj(map["b" := Str("")])];
    var both: Doc := map[UNSET := Obj(map["a" := Str(""), "b" := Str("")])];
    assert Unsets(fs[0], args) && Unsets(fs[1], args);
    assert MergeFrom(fs, args, Some(map[]), 2, last, false) == Ok(last);
    assert AddUnset(one, "b", false) == last;
    assert MergeFrom(fs, args, Some(map[]), 1, one, false) == Ok(last);
    assert AddUnset(map[], "a", false) == one;
    assert MergeFrom(fs, args, Some(map[]), 0, map[], false) == Ok(last);
    assert MergeFrom(fs, args, Some(map[]), 2, both, true) == Ok(both);
    assert Spread(Lookup(one, UNSET)) == map["a" := Str("")];
    assert AddUnset(one, "b", true) == both;
    assert MergeFrom(fs, args, Some(map[]), 1, one, true) == Ok(both);
    assert AddUnset(map[], "a", true) == one;
  }

  /** The merge fails exactly when there is no stored document and the type has an embedded relation. */
  lemma {:induction false} MergeFromFails(fs: seq<Field>, args: Value, current: Option<Doc>, i: nat, d: Doc)
    requires i <= |fs|
    ensures var r := MergeFrom(fs, args, current, i, d, true);
            && (r.Err? <==> current.None? && exists j :: i <= j < |fs| && EmbeddedRelation(fs[j]))
            && (r.Err? ==> exists j :: i <= j < |fs| && EmbeddedRelation(fs[j]) && r.error == Unknown(NullRead(fs[j].name)))
    decreases |fs| - i
  {
    if i < |fs| {
      var step := MergeField(fs[i], args, current, d, true);
      if step.Ok? {
        MergeFromFails(fs, args, current, i + 1, step.value);
      }
    }
  }

  /** A key that no remaining embedded field is named after, other than `$unset`, is left as it was. */
  lemma {:induction false} MergeFromKeeps(fs: seq<Field>, args: Value, current: Option<Doc>, i: nat, d: Doc, key: string)
    requires i <= |fs| && key != UNSET
    requires forall j :: i <= j < |fs| && EmbeddedRelation(fs[j]) ==> fs[j].name != key
    requires MergeFrom(fs, args, current, i, d, true).Ok?
    ensures var r := MergeFrom(fs, args, current, i, d, true).value;
            (key in r <==> key in d) && Lookup(r, key) == Lookup(d, key)
    decreases |fs| - i
  {
    if i < |fs| {
      var next := MergeField(fs[i], args, current, d, true).value;
      assert (key in next <==> key in d) && Lookup(next, key) == Lookup(d, key);
      MergeFromKeeps(fs, args, current, i + 1, next, key);
    }
  }

  /** The value an embedded field `k` ends with, once field `k` has been reached with `d`. */
  function EmbeddedOutcome(f: Field, current: Doc, d: Doc): Value {
    if Truthy(Lookup(d, f.name)) then Combined(Lookup(current, f.name), Lookup(d, f.name)) else Lookup(d, f.name)
  }

  lemma {:induction false} MergeFromEmbedded(fs: seq<Field>, args: Value, current: Doc, i: nat, d: Doc, k: nat)
    requires i <= k < |fs| && UniqueNames(fs) && NoUnsetField(fs) && EmbeddedRelation(fs[k])
    requires MergeFrom(fs, args, Some(current), i, d, true).Ok?
    ensures Lookup(MergeFrom(fs, args, Some(current), i, d, true).value, fs[k].name) == EmbeddedOutcome(fs[k], current, d)
    decreases |fs| - i
  {
    var next := MergeField(fs[i], args, Some(current), d, true).value;
    if i == k {
      MergeFromEmbeddedHere(fs, args, current, d, k);
    } else {
      assert fs[i].name != fs[k].name;
      MergeFieldOther(fs[i], args, current, d, fs[k].name);
      MergeFromEmbedded(fs, args, current, i + 1, next, k);
    }
  }

  lemma MergeFromEmbeddedHere(fs: seq<Field>, args: Value, current: Doc, d: Doc, k: nat)
    requires k < |fs| && UniqueNames(fs) && NoUnsetField(fs) && EmbeddedRelation(fs[k])
    requires MergeFrom(fs, args, Some(current), k, d, true).Ok?
    ensures Lookup(MergeFrom(fs, args, Some(current), k, d, true).value, fs[k].name) == EmbeddedOutcome(fs[k], current, d)
  {
    var next := MergeField(fs[k], args, Some(current), d, true).value;
    assert MergeFrom(fs, args, Some(current), k, d, true) == MergeFrom(fs, args, Some(current), k + 1, next, true);
    MergeFieldOwn(fs[k], args, current, d);
    MergeFromKeeps(fs, args, Some(current), k + 1, next, fs[k].name);
  }

  lemma MergeFieldOwn(f: Field, args: Value, current: Doc, d: Doc)
    requires EmbeddedRelation(f) && f.name != UNSET
    ensures Lookup(MergeField(f, args, Some(current), d, true).value, f.name) == EmbeddedOutcome(f, current, d)
  {
  }

  lemma MergeFieldOther(f: Field, args: Value, current: Doc, d: Doc, key: string)
    requires f.name != key && key != UNSET
    ensures Lookup(MergeField(f, args, Some(current), d, true).value, key) == Lookup(d, key)
  {
  }

  /** `$unset` gains the name of every remaining null nullable field, and nothing else. */
  lemma {:induction false} MergeFromUnsets(fs: seq<Field>, args: Value, current: Option<Doc>, i: nat, d: Doc, n: string)
    requires i <= |fs| && NoUnsetField(fs)
    requires MergeFrom(fs, args, current, i, d, true).Ok?
    ensures var r := MergeFrom(fs, args, current, i, d, true).value;
            && (UNSET in r <==> UNSET in d || exists j :: i <= j < |fs| && Unsets(fs[j], args))
            && (n in Unsetting(r) <==> n in Unsetting(d) || exists j :: i <= j < |fs| && Unsets(fs[j], args) && fs[j].name == n)
    decreases |fs| - i
  {
    if i < |fs| {
      var next := MergeField(fs[i], args, current, d, true).value;
      assert fs[i].name != UNSET;
      MergeFieldUnsets(fs[i], args, current, d, n);
      MergeFromUnsets(fs, args, current, i + 1, next, n);
    }
  }

  lemma MergeFieldUnsets(f: Field, args: Value, current: Option<Doc>, d: Doc, n: string)
    requires f.name != UNSET && MergeField(f, args, current, d, true).Ok?
    ensures var next := MergeField(f, args, current, d, true).value;
            && (UNSET in next <==> UNSET in d || Unsets(f, args))
            && (n in Unsetting(next) <==> n in Unsetting(d) || (Unsets(f, args) && f.name == n))
  {
  }

  /** No stored document and an embedded relation is a TypeError, reading that field of `null`; anything else merges. */
  lemma MergeFails(fs: seq<Field>, args: Value, modified: Doc, current: Option<Doc>)
    ensures var r := Merge(fs, args, modified, current);
            && (r.Err? <==> current.None? && exists j :: 0 <= j < |fs| && EmbeddedRelation(fs[j]))
            && (r.Err? ==> exists j :: 0 <= j < |fs| && EmbeddedRelation(fs[j]) && r.error == Unknown(NullRead(fs[j].name)))
  {
    MergeFromFails(fs, args, current, 0, modified);
  }

  /**
   * An embedded field with a truthy new value ends as that value combined
   * with the stored one; with a falsy one it keeps what the update had.
   */
  lemma MergeEmbedded(fs: seq<Field>, args: Value, modified: Doc, current: Doc, k: nat)
    requires k < |fs| && UniqueNames(fs) && NoUnsetField(fs) && EmbeddedRelation(fs[k])
    ensures Merge(fs, args, modified, Some(current)).Ok?
    ensures var r := Merge(fs, args, modified, Some(current)).value;
            var update := Lookup(modified, fs[k].name);
            && (Truthy(update) ==> Lookup(r, fs[k].name) == Combined(Lookup(current, fs[k].name), update))
            && (!Truthy(update) ==> Lookup(r, fs[k].name) == update)
  {
    MergeFromFails(fs, args, Some(current), 0, modified);
    MergeFromEmbedded(fs, args, current, 0, modified, k);
  }

  /** Every other key of the update, the non-embedded fields included, is written as materialised. */
  lemma MergeKeeps(fs: seq<Field>, args: Value, modified: Doc, current: Option<Doc>, key: string)
    requires key != UNSET && Merge(fs, args, modified, current).Ok?
    requires forall j :: 0 <= j < |fs| && EmbeddedRelation(fs[j]) ==> fs[j].name != key
    ensures var r := Merge(fs, args, modified, current).value;
            (key in r <==> key in modified) && Lookup(r, key) == Lookup(modified, key)
  {
    MergeFromKeeps(fs, args, current, 0, modified, key);
  }

  /** An update without `$unset` gets one exactly when a nullable field is null, naming every such field. */
  lemma MergeUnsets(fs: seq<Field>, args: Value, modified: Doc, current: Option<Doc>, n: string)
    requires NoUnsetField(fs) && UNSET !in modified && Merge(fs, args, modified, current).Ok?
    ensures var r := Merge(fs, args, modified, current).value;
            && (UNSET in r <==> exists j :: 0 <= j < |fs| && Unsets(fs[j], args))
            && (n in Unsetting(r) <==> exists j :: 0 <= j < |fs| && Unsets(fs[j], args) && fs[j].name == n)
  {
    MergeFromUnsets(fs, args, current, 0, modified, n);
  }

  /** The `forEach` of `onUpdateSubject` (src/index.js:489-507), reassigning the update as it goes. */
  method MergeUpdate(fs: seq<Field>, args: Value, modified: Doc, current: Option<Doc>) returns (r: Result<Doc, Thrown>)
    ensures r == Merge(fs, args, modified, current)
  {
    ghost var whole := Merge(fs, args, modified, current);
    var d := modified;
    var i := 0;
    while i < |fs|
      invariant i <= |fs|
      invariant whole == MergeFrom(fs, args, current, i, d, true)
    {
      var f := fs[i];
      if f.relation.Some? && f.relation.value.embedded {
        if current.None? {
          return Err(Unknown(NullRead(f.name)));
        }
        var newData := Lookup(d, f.name);
        if Truthy(newData) {
          var oldData := Lookup(current.value, f.name);
          if oldData.Arr? && newData.Arr? {
            d := d[f.name := newData];
          } else {
            d := d[f.name := Obj(Spread(oldData) + Spread(newData))];
          }
        }
      }
      if Get(args, f.name) == Null && !f.ty.NonNull? {
        d := d[UNSET := Obj(Spread(Lookup(d, UNSET))[f.name := Str("")])];
      }
      i := i + 1;
    }
    return Ok(d);
  }
}
