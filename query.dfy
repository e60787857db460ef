/**
 * `buildQuery` (src/index.js:1087-1155): the aggregation pipeline of a list
 * query. Every filter argument contributes its joins (a `$lookup` followed
 * by its `$unwind`) and its clauses, which are merged into one `$match`;
 * `pagination` and `sort` set the limit, skip and sort stages. The
 * pipeline is the joins, then the `$match` if any clause was produced, then
 * `$sort` when a sort was given and the query is not a count, then `$limit`
 * and `$skip`, or, for a count, a single `$count`.
 */
module Query {
  import opened Wrappers
  import opened Values
  import opened Schema
  import opened Errors
  import opened Ordered
  import opened Terms

  /** `QLSortOrder` (const/QLSort.js). */
  datatype SortOrder = ASC | DESC

  /** A `QLSort` term. */
  datatype SortTerm = SortTerm(field: string, order: SortOrder)

  /** One argument of a list query: a filter on a field, `pagination` or `sort`. */
  datatype Arg =
    | FilterArg(filter: FilterField)
    | PaginationArg(page: int, size: int)
    | SortArg(terms: seq<SortTerm>)

  /**
   * The arguments in their order. GraphQL types them by name: `pagination`
   * is a `QLPagination`, `sort` a `QLSortExpression`, every other name a
   * filter; an argument of another shape than its name calls for cannot
   * arise, and the functions below pass it over.
   */
  type Input = Entries<Arg>

  datatype Stage =
    | LookupStage(join: Join)
    | UnwindStage(path: string, preserveNullAndEmptyArrays: bool)
    | MatchStage(conditions: Doc)
    | SortStage(keys: Entries<int>)
    | LimitStage(limit: int)
    | SkipStage(skip: int)
    | CountStage(field: string)

  const DEFAULT_LIMIT: int := 100
  const DEFAULT_SKIP: int := 0

  /** `sort.order === 'ASC' ? 1 : -1`. */
  function Direction(order: SortOrder): int {
    if order == ASC then 1 else -1
  }

  /** The sort terms from `i` on, each setting its field's direction. */
  function SortFrom(terms: seq<SortTerm>, i: nat, acc: Entries<int>): Entries<int>
    requires i <= |terms|
    decreases |terms| - i
  {
    if i == |terms| then acc
    else SortFrom(terms, i + 1, Put(acc, terms[i].field, Direction(terms[i].order)))
  }

  /** `sortExpressions` (src/index.js:1127-1131). */
  function SortExpressions(terms: seq<SortTerm>): Entries<int> {
    SortFrom(terms, 0, [])
  }

  datatype Paging = Paging(limit: int, skip: int)

  /** With page and size both given (non-zero), skip `size * (page - 1)` and limit to `size + skip`. */
  function Paginate(p: Paging, page: int, size: int): Paging {
    if page != 0 && size != 0 then
      var skip := size * (page - 1);
      Paging(size + skip, skip)
    else p
  }

  /** The limit and skip after one argument (src/index.js:1120-1125). */
  function PagingStep(p: Paging, entry: (string, Arg)): Paging {
    if entry.0 == "pagination" && entry.1.PaginationArg? then Paginate(p, entry.1.page, entry.1.size) else p
  }

  /** The limit and skip after the arguments from `i` on. */
  function PagingFrom(input: Input, i: nat, p: Paging): Paging
    requires i <= |input|
    decreases |input| - i
  {
    if i == |input| then p else PagingFrom(input, i + 1, PagingStep(p, input[i]))
  }

  /** The sort expressions after one argument, if a sort was given (src/index.js:1126-1133). */
  function SortingStep(s: Option<Entries<int>>, entry: (string, Arg)): Option<Entries<int>> {
    if entry.0 == "sort" && entry.1.SortArg? then Some(SortExpressions(entry.1.terms)) else s
  }

  /** The sort expressions after the arguments from `i` on. */
  function SortingFrom(input: Input, i: nat, s: Option<Entries<int>>): Option<Entries<int>>
    requires i <= |input|
    decreases |input| - i
  {
    if i == |input| then s else SortingFrom(input, i + 1, SortingStep(s, input[i]))
  }

  /** The joins from `i` on, each as its `$lookup` then its `$unwind` (src/index.js:1104-1107). */
  function JoinStagesFrom(joins: seq<Join>, i: nat, acc: seq<Stage>): seq<Stage>
    requires i <= |joins|
    decreases |joins| - i
  {
    if i == |joins| then acc
    else JoinStagesFrom(joins, i + 1, acc + [LookupStage(joins[i]), UnwindStage("$" + joins[i].alias, true)])
  }

  /** The `$match` conditions so far, and `addMatch`. */
  datatype Matched = Matched(conditions: Doc, any: bool)

  /** The clauses from `i` on merged into the conditions, key by key (src/index.js:1109-1118). */
  function AbsorbFrom(matches: Entries<Doc>, i: nat, m: Matched): Matched
    requires i <= |matches|
    decreases |matches| - i
  {
    if i == |matches| then m
    else AbsorbFrom(matches, i + 1, Matched(m.conditions + matches[i].1, m.any || matches[i].1 != map[]))
  }

  /** The join stages and the conditions gathered from the filters. */
  datatype Filtered = Filtered(stages: seq<Stage>, matched: Matched)

  /** One filter argument: its field, its clauses, their stages and conditions (src/index.js:1097-1119). */
  function FilterStep(reg: Registry, t: ObjectType, acc: Filtered, key: string, filter: FilterField): Result<Filtered, Thrown> {
    match FieldNamed(t.fields, key)
    case None => Err(MISSING_FIELD)
    case Some(f) =>
      match QueryTerms(reg, filter, f, key, true)
      case Err(e) => Err(e)
      case Ok(c) => Ok(Filtered(JoinStagesFrom(c.joins, 0, acc.stages), AbsorbFrom(c.matches, 0, acc.matched)))
  }

  /** The filter arguments from `i` on, stopping at the first error. */
  function FiltersFrom(reg: Registry, t: ObjectType, input: Input, i: nat, acc: Filtered): Result<Filtered, Thrown>
    requires i <= |input|
    decreases |input| - i
  {
    if i == |input| then Ok(acc)
    else
      var key, arg := input[i].0, input[i].1;
      if key != "pagination" && key != "sort" && arg.FilterArg? then
        match FilterStep(reg, t, acc, key, arg.filter)
        case Err(e) => Err(e)
        case Ok(next) => FiltersFrom(reg, t, input, i + 1, next)
      else FiltersFrom(reg, t, input, i + 1, acc)
  }

  /** The stages after the joins (src/index.js:1136-1152). */
  function Tail(matched: Matched, sorting: Option<Entries<int>>, paging: Paging, isCount: bool): seq<Stage> {
    (if matched.any then [MatchStage(matched.conditions)] else [])
    + (if sorting.Some? && !isCount then [SortStage(sorting.value)] else [])
    + (if !isCount then [LimitStage(paging.limit), SkipStage(paging.skip)] else [])
    + (if isCount then [CountStage("size")] else [])
  }

  const NO_FILTERS: Filtered := Filtered([], Matched(map[], false))

  /** `buildQuery(input, gqltype, isCount)`. */
  function Pipeline(reg: Registry, t: ObjectType, input: Input, isCount: bool): Result<seq<Stage>, Thrown> {
    match FiltersFrom(reg, t, input, 0, NO_FILTERS)
    case Err(e) => Err(e)
    case Ok(fl) =>
      Ok(fl.stages + Tail(fl.matched, SortingFrom(input, 0, None), PagingFrom(input, 0, Paging(DEFAULT_LIMIT, DEFAULT_SKIP)), isCount))
  }

  /** The place of each kind of stage in a pipeline. */
  function Rank(s: Stage): nat {
    match s
    case LookupStage(_) => 0
    case UnwindStage(_, _) => 0
    case MatchStage(_) => 1
    case SortStage(_) => 2
    case LimitStage(_) => 3
    case SkipStage(_) => 4
    case CountStage(_) => 5
  }

  /**
   * The stages come in rank order, and each stage after the joins occurs
   * at most once.
   */
  predicate InOrder(s: seq<Stage>) {
    forall i, j :: 0 <= i < j < |s| ==> Rank(s[i]) <= Rank(s[j]) && (Rank(s[i]) > 0 ==> Rank(s[i]) < Rank(s[j]))
  }

  /** Each `$lookup` is directly followed by the `$unwind` of its alias, keeping unmatched documents. */
  predicate Paired(s: seq<Stage>) {
    && |s| % 2 == 0
    && (forall i :: 0 <= i < |s| && i % 2 == 0 ==> s[i].LookupStage?)
    && (forall i :: 0 <= i < |s| && i % 2 == 1 ==> s[i - 1].LookupStage? && s[i] == UnwindStage("$" + s[i - 1].join.alias, true))
  }

  lemma PairedPush(s: seq<Stage>, j: Join)
    requires Paired(s)
    ensures Paired(s + [LookupStage(j), UnwindStage("$" + j.alias, true)])
  {
    var r := s + [LookupStage(j), UnwindStage("$" + j.alias, true)];
    assert r[|s|] == LookupStage(j) && r[|s| + 1] == UnwindStage("$" + j.alias, true);
    assert forall i :: 0 <= i < |s| ==> r[i] == s[i];
  }

  /**
   * The join stages of a list of joins extend what came before with, for
   * each join in order, its `$lookup` and then its `$unwind`.
   */
  lemma {:induction false} JoinStagesShape(joins: seq<Join>, i: nat, acc: seq<Stage>)
    requires i <= |joins|
    ensures var r := JoinStagesFrom(joins, i, acc);
            && |r| == |acc| + 2 * (|joins| - i)
            && r[..|acc|] == acc
            && (forall k :: i <= k < |joins| ==> r[|acc| + 2 * (k - i)] == LookupStage(joins[k]))
            && (forall k :: i <= k < |joins| ==> r[|acc| + 2 * (k - i) + 1] == UnwindStage("$" + joins[k].alias, true))
            && (Paired(acc) ==> Paired(r))
    decreases |joins| - i
  {
    if i < |joins| {
      var next := acc + [LookupStage(joins[i]), UnwindStage("$" + joins[i].alias, true)];
      JoinStagesShape(joins, i + 1, next);
      var r := JoinStagesFrom(joins, i + 1, next);
      assert r[..|acc|] == acc by { assert r[..|next|][..|acc|] == acc; }
      assert r[|acc|] == next[|acc|] && r[|acc| + 1] == next[|acc| + 1];
      if Paired(acc) { PairedPush(acc, joins[i]); }
    }
  }

  lemma FilterStepPaired(reg: Registry, t: ObjectType, acc: Filtered, key: string, filter: FilterField)
    requires Paired(acc.stages) && FilterStep(reg, t, acc, key, filter).Ok?
    ensures Paired(FilterStep(reg, t, acc, key, filter).value.stages)
  {
    var c := QueryTerms(reg, filter, FieldNamed(t.fields, key).value, key, true).value;
    JoinStagesShape(c.joins, 0, acc.stages);
  }

  /** The filters only ever produce join stages, in pairs. */
  lemma {:induction false} FiltersPaired(reg: Registry, t: ObjectType, input: Input, i: nat, acc: Filtered)
    requires i <= |input| && Paired(acc.stages)
    requires FiltersFrom(reg, t, input, i, acc).Ok?
    ensures Paired(FiltersFrom(reg, t, input, i, acc).value.stages)
    decreases |input| - i
  {
    if i < |input| {
      var key, arg := input[i].0, input[i].1;
      if key != "pagination" && key != "sort" && arg.FilterArg? {
        FilterStepPaired(reg, t, acc, key, arg.filter);
        FiltersPaired(reg, t, input, i + 1, FilterStep(reg, t, acc, key, arg.filter).value);
      } else {
        FiltersPaired(reg, t, input, i + 1, acc);
      }
    }
  }

  lemma InOrderCons(x: Stage, s: seq<Stage>)
    requires InOrder(s) && forall i :: 0 <= i < |s| ==> Rank(x) < Rank(s[i])
    ensures InOrder([x] + s)
  {
    var r := [x] + s;
    forall i, j | 0 <= i < j < |r| ensures Rank(r[i]) <= Rank(r[j]) && (Rank(r[i]) > 0 ==> Rank(r[i]) < Rank(r[j])) {
      assert r[j] == s[j - 1];
      if i > 0 { assert r[i] == s[i - 1]; }
    }
  }

  /** Join stages followed by stages in rank order, none of them a join, are in rank order. */
  lemma InOrderAppend(a: seq<Stage>, b: seq<Stage>)
    requires forall i :: 0 <= i < |a| ==> Rank(a[i]) == 0
    requires InOrder(b) && forall i :: 0 <= i < |b| ==> Rank(b[i]) > 0
    ensures InOrder(a + b)
  {
    var r := a + b;
    forall i, j | 0 <= i < j < |r| ensures Rank(r[i]) <= Rank(r[j]) && (Rank(r[i]) > 0 ==> Rank(r[i]) < Rank(r[j])) {
      if i < |a| {
        assert r[i] == a[i];
        if j >= |a| { assert r[j] == b[j - |a|]; } else { assert r[j] == a[j]; }
      } else {
        assert r[i] == b[i - |a|] && r[j] == b[j - |a|];
      }
    }
  }

  /** The stages after the joins come in rank order, none of them a join. */
  lemma TailOrder(matched: Matched, sorting: Option<Entries<int>>, paging: Paging, isCount: bool)
    ensures var s := Tail(matched, sorting, paging, isCount);
            && InOrder(s)
            && forall i :: 0 <= i < |s| ==> Rank(s[i]) > 0
  {
    var e: seq<Stage>;
    if isCount {
      e := [CountStage("size")];
    } else {
      e := [SkipStage(paging.skip)];
      InOrderCons(LimitStage(paging.limit), e);
      e := [LimitStage(paging.limit)] + e;
      if sorting.Some? {
        InOrderCons(SortStage(sorting.value), e);
        e := [SortStage(sorting.value)] + e;
      }
    }
    if matched.any {
      InOrderCons(MatchStage(matched.conditions), e);
      e := [MatchStage(matched.conditions)] + e;
    }
    assert Tail(matched, sorting, paging, isCount) == e;
  }

  /** There is a `$match` exactly when some clause was produced, and it comes first. */
  lemma TailMatch(matched: Matched, sorting: Option<Entries<int>>, paging: Paging, isCount: bool)
    ensures var s := Tail(matched, sorting, paging, isCount);
            && (forall i :: 0 <= i < |s| ==> (s[i].MatchStage? <==> matched.any && i == 0))
            && (matched.any ==> s[0] == MatchStage(matched.conditions))
  {
  }

  /**
   * There is a `$sort` exactly when a sort was given and the query is not a
   * count, right after the `$match` if there is one, and it sorts by the
   * given keys.
   */
  lemma TailSort(matched: Matched, sorting: Option<Entries<int>>, paging: Paging, isCount: bool)
    ensures var s := Tail(matched, sorting, paging, isCount);
            var at := if matched.any then 1 else 0;
            && (forall i :: 0 <= i < |s| ==> (s[i].SortStage? <==> sorting.Some? && !isCount && i == at))
            && (sorting.Some? && !isCount ==> s[at] == SortStage(sorting.value))
  {
  }

  /**
   * A count ends with one `$count` of `size` after the `$match`, if any; any
   * other query ends with its `$limit` and `$skip` and has no `$count`.
   */
  lemma TailEnd(matched: Matched, sorting: Option<Entries<int>>, paging: Paging, isCount: bool)
    ensures var s := Tail(matched, sorting, paging, isCount);
            var m := if matched.any then 1 else 0;
            && (isCount ==> |s| == m + 1 && s[m] == CountStage("size"))
            && (!isCount ==>
                  && |s| == m + (if sorting.Some? then 1 else 0) + 2
                  && s[|s| - 2] == LimitStage(paging.limit) && s[|s| - 1] == SkipStage(paging.skip)
                  && forall i :: 0 <= i < |s| ==> !s[i].CountStage?)
  {
  }

  lemma PairedRanks(s: seq<Stage>)
    requires Paired(s)
    ensures forall i :: 0 <= i < |s| ==> s[i].LookupStage? || s[i].UnwindStage?
  {
    forall i | 0 <= i < |s| ensures s[i].LookupStage? || s[i].UnwindStage? {
      if i % 2 == 1 { assert s[i] == UnwindStage("$" + s[i - 1].join.alias, true); }
    }
  }

  /**
   * The shape of a list query's pipeline `s` whose first `n` stages are the
   * joins: each `$lookup` directly followed by its `$unwind`, then the
   * `$match` exactly when some clause was produced, then the `$sort` exactly
   * when a sort was given and the query is not a count, then `$limit` and
   * `$skip` with the given paging, or for a count a single `$count` of
   * `size`; every kind of stage after the joins occurs at most once, in that
   * order.
   */
  predicate WellShaped(s: seq<Stage>, n: nat, matched: Matched, sorting: Option<Entries<int>>, paging: Paging, isCount: bool) {
    && JoinsFirst(s, n)
    && MatchPlaced(s, n, matched)
    && SortPlaced(s, n, matched, sorting, isCount)
    && EndPlaced(s, n, matched, sorting, paging, isCount)
  }

  predicate JoinsFirst(s: seq<Stage>, n: nat) {
    && InOrder(s)
    && n <= |s| && Paired(s[..n])
    && forall i :: n <= i < |s| ==> Rank(s[i]) > 0
  }

  predicate MatchPlaced(s: seq<Stage>, n: nat, matched: Matched) {
    && (forall i :: 0 <= i < |s| ==> (s[i].MatchStage? <==> matched.any && i == n))
    && (matched.any ==> n < |s| && s[n] == MatchStage(matched.conditions))
  }

  predicate SortPlaced(s: seq<Stage>, n: nat, matched: Matched, sorting: Option<Entries<int>>, isCount: bool) {
    var at := n + if matched.any then 1 else 0;
    && (forall i :: 0 <= i < |s| ==> (s[i].SortStage? <==> sorting.Some? && !isCount && i == at))
    && (sorting.Some? && !isCount ==> at < |s| && s[at] == SortStage(sorting.value))
  }

  predicate EndPlaced(s: seq<Stage>, n: nat, matched: Matched, sorting: Option<Entries<int>>, paging: Paging, isCount: bool) {
    var m := if matched.any then 1 else 0;
    && (isCount ==> |s| == n + m + 1 && s[|s| - 1] == CountStage("size"))
    && (!isCount ==>
          && |s| == n + m + (if sorting.Some? then 1 else 0) + 2
          && s[|s| - 2] == LimitStage(paging.limit) && s[|s| - 1] == SkipStage(paging.skip)
          && forall i :: 0 <= i < |s| ==> !s[i].CountStage?)
  }

  lemma StagesOrder(a: seq<Stage>, matched: Matched, sorting: Option<Entries<int>>, paging: Paging, isCount: bool)
    requires Paired(a)
    ensures JoinsFirst(a + Tail(matched, sorting, paging, isCount), |a|)
  {
    var tail := Tail(matched, sorting, paging, isCount);
    var s := a + tail;
    PairedRanks(a);
    TailOrder(matched, sorting, paging, isCount);
    InOrderAppend(a, tail);
    assert s[..|a|] == a;
    assert forall i :: |a| <= i < |s| ==> s[i] == tail[i - |a|];
  }

  lemma StagesMatch(a: seq<Stage>, matched: Matched, sorting: Option<Entries<int>>, paging: Paging, isCount: bool)
    requires Paired(a)
    ensures MatchPlaced(a + Tail(matched, sorting, paging, isCount), |a|, matched)
  {
    var tail := Tail(matched, sorting, paging, isCount);
    var s := a + tail;
    PairedRanks(a);
    TailMatch(matched, sorting, paging, isCount);
    assert forall i :: |a| <= i < |s| ==> s[i] == tail[i - |a|];
    assert forall i :: 0 <= i < |a| ==> s[i] == a[i];
  }

  lemma StagesSort(a: seq<Stage>, matched: Matched, sorting: Option<Entries<int>>, paging: Paging, isCount: bool)
    requires Paired(a)
    ensures SortPlaced(a + Tail(matched, sorting, paging, isCount), |a|, matched, sorting, isCount)
  {
    var tail := Tail(matched, sorting, paging, isCount);
    var s := a + tail;
    PairedRanks(a);
    TailSort(matched, sorting, paging, isCount);
    assert forall i :: |a| <= i < |s| ==> s[i] == tail[i - |a|];
    assert forall i :: 0 <= i < |a| ==> s[i] == a[i];
  }

  lemma StagesEnd(a: seq<Stage>, matched: Matched, sorting: Option<Entries<int>>, paging: Paging, isCount: bool)
    requires Paired(a)
    ensures EndPlaced(a + Tail(matched, sorting, paging, isCount), |a|, matched, sorting, paging, isCount)
  {
    var tail := Tail(matched, sorting, paging, isCount);
    var s := a + tail;
    PairedRanks(a);
    TailEnd(matched, sorting, paging, isCount);
    assert forall i :: |a| <= i < |s| ==> s[i] == tail[i - |a|];
    assert forall i :: 0 <= i < |a| ==> s[i] == a[i];
  }

  /** `buildQuery` always yields a well-shaped pipeline, its joins those of the filters. */
  lemma PipelineShape(reg: Registry, t: ObjectType, input: Input, isCount: bool)
    requires Pipeline(reg, t, input, isCount).Ok?
    ensures var fl := FiltersFrom(reg, t, input, 0, NO_FILTERS).value;
            var s := Pipeline(reg, t, input, isCount).value;
            && s[..|fl.stages|] == fl.stages
            && WellShaped(s, |fl.stages|, fl.matched, SortingFrom(input, 0, None), PagingFrom(input, 0, Paging(DEFAULT_LIMIT, DEFAULT_SKIP)), isCount)
  {
    var fl := FiltersFrom(reg, t, input, 0, NO_FILTERS).value;
    var sorting := SortingFrom(input, 0, None);
    var paging := PagingFrom(input, 0, Paging(DEFAULT_LIMIT, DEFAULT_SKIP));
    FiltersPaired(reg, t, input, 0, NO_FILTERS);
    StagesOrder(fl.stages, fl.matched, sorting, paging, isCount);
    StagesMatch(fl.stages, fl.matched, sorting, paging, isCount);
    StagesSort(fl.stages, fl.matched, sorting, paging, isCount);
    StagesEnd(fl.stages, fl.matched, sorting, paging, isCount);
    assert (fl.stages + Tail(fl.matched, sorting, paging, isCount))[..|fl.stages|] == fl.stages;
  }

  /**
   * A list query's pipeline is never empty: it always ends in `$limit` and
   * `$skip`, so the resolver's fallback for an empty pipeline is never taken.
   */
  lemma PipelineNeverEmpty(reg: Registry, t: ObjectType, input: Input)
    requires Pipeline(reg, t, input, false).Ok?
    ensures var s := Pipeline(reg, t, input, false).value;
            && |s| >= 2
            && s[|s| - 2] == LimitStage(PagingFrom(input, 0, Paging(DEFAULT_LIMIT, DEFAULT_SKIP)).limit)
            && s[|s| - 1] == SkipStage(PagingFrom(input, 0, Paging(DEFAULT_LIMIT, DEFAULT_SKIP)).skip)
  {
    var fl := FiltersFrom(reg, t, input, 0, NO_FILTERS).value;
    var paging := PagingFrom(input, 0, Paging(DEFAULT_LIMIT, DEFAULT_SKIP));
    var tail := Tail(fl.matched, SortingFrom(input, 0, None), paging, false);
    TailEnd(fl.matched, SortingFrom(input, 0, None), paging, false);
    assert (fl.stages + tail)[|fl.stages + tail| - 1] == tail[|tail| - 1];
    assert (fl.stages + tail)[|fl.stages + tail| - 2] == tail[|tail| - 2];
  }

  /** Whether argument `j` is a `pagination` with both page and size given. */
  predicate PaginationAt(input: Input, j: nat)
    requires j < |input|
  {
    input[j].0 == "pagination" && input[j].1.PaginationArg? && input[j].1.page != 0 && input[j].1.size != 0
  }

  lemma {:induction false} PagingKept(input: Input, i: nat, p: Paging)
    requires i <= |input| && forall j :: i <= j < |input| ==> !PaginationAt(input, j)
    ensures PagingFrom(input, i, p) == p
    decreases |input| - i
  {
    if i < |input| {
      assert !PaginationAt(input, i);
      PagingKept(input, i + 1, p);
    }
  }

  lemma {:induction false} PagingLast(input: Input, i: nat, p: Paging, q: nat)
    requires i <= q < |input| && PaginationAt(input, q)
    requires forall j :: q < j < |input| ==> !PaginationAt(input, j)
    ensures var a := input[q].1;
            PagingFrom(input, i, p) == Paging(a.size + a.size * (a.page - 1), a.size * (a.page - 1))
    decreases q - i
  {
    var next := PagingStep(p, input[i]);
    if i == q {
      PagingKept(input, i + 1, next);
    } else {
      PagingLast(input, i + 1, next, q);
    }
  }

  /**
   * Without a page and a size the query takes the first 100 documents;
   * with them it skips `size * (page - 1)` documents and limits the
   * pipeline to `size` more than it skips.
   */
  lemma PaginationOf(input: Input)
    ensures (forall j :: 0 <= j < |input| ==> !PaginationAt(input, j)) ==>
              PagingFrom(input, 0, Paging(DEFAULT_LIMIT, DEFAULT_SKIP)) == Paging(100, 0)
    ensures forall q :: 0 <= q < |input| && PaginationAt(input, q) && (forall j :: q < j < |input| ==> !PaginationAt(input, j)) ==>
              var a := input[q].1;
              PagingFrom(input, 0, Paging(DEFAULT_LIMIT, DEFAULT_SKIP)) == Paging(a.size + a.size * (a.page - 1), a.size * (a.page - 1))
  {
    if forall j :: 0 <= j < |input| ==> !PaginationAt(input, j) {
      PagingKept(input, 0, Paging(DEFAULT_LIMIT, DEFAULT_SKIP));
    }
    forall q | 0 <= q < |input| && PaginationAt(input, q) && (forall j :: q < j < |input| ==> !PaginationAt(input, j))
      ensures var a := input[q].1;
              PagingFrom(input, 0, Paging(DEFAULT_LIMIT, DEFAULT_SKIP)) == Paging(a.size + a.size * (a.page - 1), a.size * (a.page - 1))
    {
      PagingLast(input, 0, Paging(DEFAULT_LIMIT, DEFAULT_SKIP), q);
    }
  }

  /** Whether argument `j` is a `sort`. */
  predicate SortAt(input: Input, j: nat)
    requires j < |input|
  {
    input[j].0 == "sort" && input[j].1.SortArg?
  }

  lemma {:induction false} SortingKept(input: Input, i: nat, s: Option<Entries<int>>)
    requires i <= |input| && forall j :: i <= j < |input| ==> !SortAt(input, j)
    ensures SortingFrom(input, i, s) == s
    decreases |input| - i
  {
    if i < |input| {
      assert !SortAt(input, i);
      SortingKept(input, i + 1, s);
    }
  }

  lemma {:induction false} SortingLast(input: Input, i: nat, s: Option<Entries<int>>, q: nat)
    requires i <= q < |input| && SortAt(input, q)
    requires forall j :: q < j < |input| ==> !SortAt(input, j)
    ensures SortingFrom(input, i, s) == Some(SortExpressions(input[q].1.terms))
    decreases q - i
  {
    var next := SortingStep(s, input[i]);
    if i == q {
      SortingKept(input, i + 1, next);
    } else {
      SortingLast(input, i + 1, next, q);
    }
  }

  /** There is a sort exactly when a `sort` argument was given, and it is that argument's. */
  lemma SortingOf(input: Input)
    ensures (forall j :: 0 <= j < |input| ==> !SortAt(input, j)) ==> SortingFrom(input, 0, None) == None
    ensures forall q :: 0 <= q < |input| && SortAt(input, q) && (forall j :: q < j < |input| ==> !SortAt(input, j)) ==>
              SortingFrom(input, 0, None) == Some(SortExpressions(input[q].1.terms))
  {
    if forall j :: 0 <= j < |input| ==> !SortAt(input, j) {
      SortingKept(input, 0, None);
    }
    forall q | 0 <= q < |input| && SortAt(input, q) && (forall j :: q < j < |input| ==> !SortAt(input, j))
      ensures SortingFrom(input, 0, None) == Some(SortExpressions(input[q].1.terms))
    {
      SortingLast(input, 0, None, q);
    }
  }

  function FieldsFrom(terms: seq<SortTerm>, i: nat): set<string>
    requires i <= |terms|
  {
    set j | i <= j < |terms| :: terms[j].field
  }

  lemma {:induction false} SortFromKeys(terms: seq<SortTerm>, i: nat, acc: Entries<int>)
    requires i <= |terms|
    ensures KeysOf(SortFrom(terms, i, acc)) == KeysOf(acc) + FieldsFrom(terms, i)
    ensures UniqueKeys(acc) ==> UniqueKeys(SortFrom(terms, i, acc))
    decreases |terms| - i
  {
    if i < |terms| {
      var next := Put(acc, terms[i].field, Direction(terms[i].order));
      PutKeys(acc, terms[i].field, Direction(terms[i].order));
      if UniqueKeys(acc) { PutUnique(acc, terms[i].field, Direction(terms[i].order)); }
      SortFromKeys(terms, i + 1, next);
      assert FieldsFrom(terms, i) == {terms[i].field} + FieldsFrom(terms, i + 1);
    } else {
      assert FieldsFrom(terms, i) == {};
    }
  }

  lemma {:induction false} SortFromUntouched(terms: seq<SortTerm>, i: nat, acc: Entries<int>, k: string)
    requires i <= |terms| && forall j :: i <= j < |terms| ==> terms[j].field != k
    ensures ValueOf(SortFrom(terms, i, acc), k) == ValueOf(acc, k)
    decreases |terms| - i
  {
    if i < |terms| {
      PutValues(acc, terms[i].field, Direction(terms[i].order), k);
      SortFromUntouched(terms, i + 1, Put(acc, terms[i].field, Direction(terms[i].order)), k);
    }
  }

  lemma {:induction false} SortFromLast(terms: seq<SortTerm>, i: nat, acc: Entries<int>, q: nat)
    requires i <= q < |terms| && forall j :: q < j < |terms| ==> terms[j].field != terms[q].field
    ensures ValueOf(SortFrom(terms, i, acc), terms[q].field) == Some(Direction(terms[q].order))
    decreases q - i
  {
    var next := Put(acc, terms[i].field, Direction(terms[i].order));
    if i == q {
      PutValues(acc, terms[i].field, Direction(terms[i].order), terms[q].field);
      SortFromUntouched(terms, i + 1, next, terms[q].field);
    } else {
      SortFromLast(terms, i + 1, next, q);
    }
  }

  /**
   * The sort expressions name each sorted field once, and sort it
   * ascending (1) or descending (-1) as its last term says.
   */
  lemma SortDirections(terms: seq<SortTerm>)
    ensures KeysOf(SortExpressions(terms)) == set j | 0 <= j < |terms| :: terms[j].field
    ensures UniqueKeys(SortExpressions(terms))
    ensures forall q :: 0 <= q < |terms| && (forall j :: q < j < |terms| ==> terms[j].field != terms[q].field) ==>
              ValueOf(SortExpressions(terms), terms[q].field) == Some(if terms[q].order == ASC then 1 else -1)
  {
    SortFromKeys(terms, 0, []);
    forall q | 0 <= q < |terms| && (forall j :: q < j < |terms| ==> terms[j].field != terms[q].field)
      ensures ValueOf(SortExpressions(terms), terms[q].field) == Some(if terms[q].order == ASC then 1 else -1)
    {
      SortFromLast(terms, 0, [], q);
    }
  }

  /**
   * Merging clauses: a key is a condition afterwards exactly when it was
   * one before or some clause has it, and `addMatch` is set exactly when it
   * was before or some clause has a key.
   */
  lemma {:induction false} AbsorbKeys(matches: Entries<Doc>, i: nat, m: Matched)
    requires i <= |matches|
    ensures var r := AbsorbFrom(matches, i, m);
            && (forall k :: k in r.conditions <==> k in m.conditions || exists j :: i <= j < |matches| && k in matches[j].1)
            && (r.any <==> m.any || exists j :: i <= j < |matches| && matches[j].1 != map[])
    decreases |matches| - i
  {
    if i < |matches| {
      AbsorbKeys(matches, i + 1, Matched(m.conditions + matches[i].1, m.any || matches[i].1 != map[]));
    }
  }

  /** A key no later clause has keeps its condition. */
  lemma {:induction false} AbsorbUntouched(matches: Entries<Doc>, i: nat, m: Matched, k: string)
    requires i <= |matches| && k in m.conditions
    requires forall j :: i <= j < |matches| ==> k !in matches[j].1
    ensures var r := AbsorbFrom(matches, i, m);
            k in r.conditions && r.conditions[k] == m.conditions[k]
    decreases |matches| - i
  {
    if i < |matches| {
      var merged := m.conditions + matches[i].1;
      assert k !in matches[i].1;
      assert k in merged && merged[k] == m.conditions[k];
      AbsorbUntouched(matches, i + 1, Matched(merged, m.any || matches[i].1 != map[]), k);
    }
  }

  /** A key takes its condition from the last clause that has it. */
  lemma {:induction false} AbsorbLast(matches: Entries<Doc>, i: nat, m: Matched, q: nat, k: string)
    requires i <= q < |matches| && k in matches[q].1
    requires forall j :: q < j < |matches| ==> k !in matches[j].1
    ensures var r := AbsorbFrom(matches, i, m);
            k in r.conditions && r.conditions[k] == matches[q].1[k]
    decreases q - i
  {
    var next := Matched(m.conditions + matches[i].1, m.any || matches[i].1 != map[]);
    if i == q {
      AbsorbUntouched(matches, i + 1, next, k);
    } else {
      AbsorbLast(matches, i + 1, next, q, k);
    }
  }

  /** Every condition of `small` is one of `big`. */
  predicate Includes(big: Doc, small: Doc) {
    forall k :: k in small ==> k in big && big[k] == small[k]
  }

  /** Clauses each made of the one condition on its own key, no key twice. */
  predicate Keyed(matches: Entries<Doc>) {
    UniqueKeys(matches) && forall j :: 0 <= j < |matches| ==> matches[j].1.Keys == {matches[j].0}
  }

  /** Merging keyed clauses sets `addMatch` exactly when there is one, and adds their keys. */
  lemma AbsorbKeyedKeys(matches: Entries<Doc>, m: Matched)
    requires Keyed(matches)
    ensures var r := AbsorbFrom(matches, 0, m);
            && (r.any <==> m.any || |matches| > 0)
            && r.conditions.Keys == m.conditions.Keys + KeysOf(matches)
  {
    var r := AbsorbFrom(matches, 0, m);
    AbsorbKeys(matches, 0, m);
    forall k | k in r.conditions ensures k in m.conditions || k in KeysOf(matches) {
      if k !in m.conditions {
        var l :| 0 <= l < |matches| && k in matches[l].1;
        assert matches[l].1.Keys == {matches[l].0};
      }
    }
    forall k | k in KeysOf(matches) ensures k in r.conditions {
      var l :| 0 <= l < |matches| && matches[l].0 == k;
      assert matches[l].1.Keys == {k};
    }
    if |matches| > 0 { assert matches[0].1.Keys == {matches[0].0}; }
  }

  /** Merging keyed clauses keeps each of them whole and every other condition as it was. */
  lemma AbsorbKeyedValues(matches: Entries<Doc>, m: Matched)
    requires Keyed(matches)
    ensures var r := AbsorbFrom(matches, 0, m);
            && (forall j :: 0 <= j < |matches| ==> Includes(r.conditions, matches[j].1))
            && (forall k :: k in m.conditions && k !in KeysOf(matches) ==> k in r.conditions && r.conditions[k] == m.conditions[k])
  {
    var r := AbsorbFrom(matches, 0, m);
    forall j | 0 <= j < |matches| ensures Includes(r.conditions, matches[j].1) {
      var k := matches[j].0;
      assert matches[j].1.Keys == {k};
      forall l | j < l < |matches| ensures k !in matches[l].1 {
        assert matches[l].1.Keys == {matches[l].0};
      }
      AbsorbLast(matches, 0, m, j, k);
    }
    forall k | k in m.conditions && k !in KeysOf(matches) ensures k in r.conditions && r.conditions[k] == m.conditions[k] {
      forall l | 0 <= l < |matches| ensures k !in matches[l].1 {
        assert matches[l].1.Keys == {matches[l].0};
      }
      AbsorbUntouched(matches, 0, m, k);
    }
  }

  /**
   * One filter argument adds to the `$match` the clause of each of its
   * terms under that term's path, keeps every other condition, and sets
   * `addMatch` exactly when it produced a clause.
   */
  lemma FilterStepMatched(reg: Registry, t: ObjectType, acc: Filtered, key: string, filter: FilterField, f: Field, c: Clauses)
    requires FieldNamed(t.fields, key) == Some(f) && QueryTerms(reg, filter, f, key, true) == Ok(c)
    ensures var r := FilterStep(reg, t, acc, key, filter).value.matched;
            && (r.any <==> acc.matched.any || |c.matches| > 0)
            && r.conditions.Keys == acc.matched.conditions.Keys + KeysOf(c.matches)
            && (forall j :: 0 <= j < |c.matches| ==> Includes(r.conditions, c.matches[j].1))
            && (forall k :: k in acc.matched.conditions && k !in KeysOf(c.matches) ==> k in r.conditions && r.conditions[k] == acc.matched.conditions[k])
  {
    assert FilterStep(reg, t, acc, key, filter).value.matched == AbsorbFrom(c.matches, 0, acc.matched);
    QueryTermsSound(reg, filter, f, key, true);
    AbsorbKeyedKeys(c.matches, acc.matched);
    AbsorbKeyedValues(c.matches, acc.matched);
  }

  /** `addMatch` over one clause: each of its conditions set on `$match` (src/index.js:1112-1117). */
  method MergeClause(conditions: Doc, clause: Doc) returns (r: Doc, added: bool)
    ensures r == conditions + clause
    ensures added <==> clause != map[]
  {
    r, added := conditions, false;
    var rest := clause.Keys;
    ghost var done: set<string> := {};
    while rest != {}
      invariant done + rest == clause.Keys && done !! rest
      invariant r.Keys == conditions.Keys + done
      invariant forall k :: k in r ==> r[k] == if k in done then clause[k] else conditions[k]
      invariant added <==> done != {}
    {
      var k :| k in rest;
      r := r[k := clause[k]];
      added := true;
      rest := rest - {k};
      done := done + {k};
    }
    assert r.Keys == (conditions + clause).Keys;
    assert forall k :: k in r ==> r[k] == (conditions + clause)[k];
    if clause != map[] {
      var k :| k in clause;
    }
  }

  /** The loop over a filter's clauses (src/index.js:1109-1118). */
  method MergeClauses(conditions: Doc, any: bool, matches: Entries<Doc>) returns (c: Doc, a: bool)
    ensures Matched(c, a) == AbsorbFrom(matches, 0, Matched(conditions, any))
  {
    ghost var whole := AbsorbFrom(matches, 0, Matched(conditions, any));
    c, a := conditions, any;
    var i := 0;
    while i < |matches|
      invariant i <= |matches|
      invariant whole == AbsorbFrom(matches, i, Matched(c, a))
    {
      var added;
      c, added := MergeClause(c, matches[i].1);
      a := a || added;
      i := i + 1;
    }
  }

  /** The loop pushing each join's `$lookup` and `$unwind` (src/index.js:1104-1107). */
  method PushJoins(stages: seq<Stage>, joins: seq<Join>) returns (r: seq<Stage>)
    ensures r == JoinStagesFrom(joins, 0, stages)
  {
    ghost var whole := JoinStagesFrom(joins, 0, stages);
    r := stages;
    var i := 0;
    while i < |joins|
      invariant i <= |joins|
      invariant whole == JoinStagesFrom(joins, i, r)
    {
      r := r + [LookupStage(joins[i]), UnwindStage("$" + joins[i].alias, true)];
      i := i + 1;
    }
  }

  /** The `forEach` over the sort terms (src/index.js:1127-1131). */
  method SortExpressionsOf(terms: seq<SortTerm>) returns (r: Entries<int>)
    ensures r == SortExpressions(terms)
  {
    r := [];
    var i := 0;
    while i < |terms|
      invariant i <= |terms|
      invariant SortExpressions(terms) == SortFrom(terms, i, r)
    {
      r := Put(r, terms[i].field, if terms[i].order == ASC then 1 else -1);
      i := i + 1;
    }
  }

  /** One filter argument: its field, its clauses, their joins and conditions (src/index.js:1097-1119), keyed by path. */
  method AddFilter(reg: Registry, t: ObjectType, stages: seq<Stage>, conditions: Doc, addMatch: bool, key: string, filter: FilterField)
    returns (r: Result<Filtered, Thrown>)
    ensures r == FilterStep(reg, t, Filtered(stages, Matched(conditions, addMatch)), key, filter)
  {
    var field := FieldNamed(t.fields, key);
    if field.None? {
      return Err(MISSING_FIELD);
    }
    var result := BuildQueryTerms(reg, filter, field.value, key);
    if result.Err? {
      return Err(result.error);
    }
    var joined := PushJoins(stages, result.value.joins);
    var merged, any := MergeClauses(conditions, addMatch, result.value.matches);
    return Ok(Filtered(joined, Matched(merged, any)));
  }

  /** The stages pushed after the loop over the arguments (src/index.js:1136-1152). */
  method Finish(stages: seq<Stage>, conditions: Doc, addMatch: bool, sortExpressions: Entries<int>, addSort: bool, paging: Paging, isCount: bool)
    returns (r: seq<Stage>)
    ensures r == stages + Tail(Matched(conditions, addMatch), if addSort then Some(sortExpressions) else None, paging, isCount)
  {
    r := stages;
    if addMatch {
      r := r + [MatchStage(conditions)];
    }
    if addSort && !isCount {
      r := r + [SortStage(sortExpressions)];
    }
    if !isCount {
      r := r + [LimitStage(paging.limit), SkipStage(paging.skip)];
    }
    if isCount {
      r := r + [CountStage("size")];
    }
  }

  /** `buildQuery(input, gqltype, isCount)` (src/index.js:1087-1155), each filter keyed by path. */
  method BuildQuery(reg: Registry, t: ObjectType, input: Input, isCount: bool) returns (r: Result<seq<Stage>, Thrown>)
    ensures r == Pipeline(reg, t, input, isCount)
  {
    ghost var whole := FiltersFrom(reg, t, input, 0, NO_FILTERS);
    var stages: seq<Stage> := [];
    var conditions: Doc := map[];
    var addMatch := false;
    var paging := Paging(DEFAULT_LIMIT, DEFAULT_SKIP);
    var sortExpressions: Entries<int> := [];
    var addSort := false;
    var i := 0;
    while i < |input|
      invariant i <= |input|
      invariant whole == FiltersFrom(reg, t, input, i, Filtered(stages, Matched(conditions, addMatch)))
      invariant PagingFrom(input, 0, Paging(DEFAULT_LIMIT, DEFAULT_SKIP)) == PagingFrom(input, i, paging)
      invariant SortingFrom(input, 0, None) == SortingFrom(input, i, if addSort then Some(sortExpressions) else None)
    {
      ghost var paged, sorted := paging, if addSort then Some(sortExpressions) else None;
      var key, arg := input[i].0, input[i].1;
      if key != "pagination" && key != "sort" && arg.FilterArg? {
        var next := AddFilter(reg, t, stages, conditions, addMatch, key, arg.filter);
        if next.Err? {
          return Err(next.error);
        }
        stages, conditions, addMatch := next.value.stages, next.value.matched.conditions, next.value.matched.any;
      } else if key == "pagination" && arg.PaginationArg? {
        if arg.page != 0 && arg.size != 0 {
          var skip := arg.size * (arg.page - 1);
          paging := Paging(arg.size + skip, skip);
        }
      } else if key == "sort" && arg.SortArg? {
        sortExpressions := SortExpressionsOf(arg.terms);
        addSort := true;
      }
      assert paging == PagingStep(paged, input[i]);
      assert (if addSort then Some(sortExpressions) else None) == SortingStep(sorted, input[i]);
      i := i + 1;
    }
    var pipeline := Finish(stages, conditions, addMatch, sortExpressions, addSort, paging, isCount);
    return Ok(pipeline);
  }
}
