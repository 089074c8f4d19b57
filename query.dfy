/** Parameterised SQL statements as tokens.

    The models build their WHERE fragments as `WHERE 1=1` followed by
    ` AND <column> <op> $<k>` pieces, with a parallel parameter list. Here a
    piece is a `Clause` token carrying its placeholder number `k`, and a row is
    seen through the cells of the columns the fragments name, so that the
    meaning of a fragment can be evaluated on an in-memory row. */
module Query {
  import opened Common

  datatype Column = ActivityId | Date | PointVente | TypeClient | Telephone | NomClient

  /** `=`, `>=`, `<=` and `ILIKE`. */
  datatype Op = Eq | Ge | Le | ILike

  /** The fragment ` AND <column> <op> $<index>`. */
  datatype Clause = Clause(column: Column, op: Op, index: nat)

  /** A bound parameter: text, or an integer (an id, a day number, a limit). */
  datatype Param = Text(s: string) | Int(n: int)

  /** A row's value in one column; SQL NULL compares as false. */
  datatype Cell = TextCell(s: string) | IntCell(n: int) | Null

  type RowView = map<Column, Cell>

  datatype Kind = SelectRows | CountRows | Aggregate

  /** The columns result rows are sorted by. */
  datatype SortColumn = ByDate | ByCreatedAt | ByPointVente
  datatype SortKey = SortKey(column: SortColumn, descending: bool)

  /** One statement: what it selects, its WHERE pieces, its ORDER BY keys,
      the placeholders of `LIMIT $n OFFSET $m` if any, and its parameters. */
  datatype Statement = Statement(
    kind: Kind,
    where: seq<Clause>,
    orderBy: seq<SortKey>,
    limitOffset: Option<(nat, nat)>,
    params: seq<Param>)

  /** The load-bearing invariant: the k-th placeholder is `$k` and refers to the
      k-th parameter, and there are as many parameters as placeholders. */
  predicate WellIndexed(where: seq<Clause>, params: seq<Param>)
  {
    |where| == |params| && forall k :: 0 <= k < |where| ==> where[k].index == k + 1
  }

  function CellOf(row: RowView, column: Column): Cell
  {
    if column in row then row[column] else Null
  }

  /** `value ILIKE pattern` for the patterns the models build: `%v%` is a
      case-insensitive substring test, anything else a case-insensitive match. */
  predicate LikeMatch(pattern: string, value: string)
  {
    if 2 <= |pattern| && pattern[0] == '%' && pattern[|pattern| - 1] == '%' then
      ContainsIgnoreCase(value, pattern[1..|pattern| - 1])
    else ToLower(value) == ToLower(pattern)
  }

  predicate Compare(op: Op, cell: Cell, p: Param)
  {
    match (op, cell, p)
    case (Eq, TextCell(v), Text(x)) => v == x
    case (Eq, IntCell(v), Int(x)) => v == x
    case (Ge, IntCell(v), Int(x)) => v >= x
    case (Le, IntCell(v), Int(x)) => v <= x
    case (ILike, TextCell(v), Text(x)) => LikeMatch(x, v)
    case _ => false
  }

  predicate ClauseHolds(c: Clause, params: seq<Param>, row: RowView)
  {
    1 <= c.index <= |params| && Compare(c.op, CellOf(row, c.column), params[c.index - 1])
  }

  /** The row satisfies `WHERE 1=1 AND ...` with these parameters bound. */
  predicate Holds(where: seq<Clause>, params: seq<Param>, row: RowView)
  {
    forall k :: 0 <= k < |where| ==> ClauseHolds(where[k], params, row)
  }

  /** A `%v%` pattern matches exactly the values containing `v`, ignoring case. */
  lemma LikeWrapped(v: string, value: string)
    ensures Compare(ILike, TextCell(value), Text("%" + v + "%")) <==> ContainsIgnoreCase(value, v)
  {
    var p := "%" + v + "%";
    assert p[1..|p| - 1] == v;
  }

  /** One optional filter of a builder: the column and operator of its
      piece, and the value to bind when the filter is given. */
  datatype Filter = Filter(column: Column, op: Op, value: Option<Param>)

  /** The filters of `fs` that are given, in order. */
  function Given(fs: seq<Filter>): (r: seq<Filter>)
    ensures |r| <= |fs|
    ensures forall k :: 0 <= k < |r| ==> r[k].value.Some?
    ensures r == [] <==> forall i :: 0 <= i < |fs| ==> fs[i].value.None?
  {
    if fs == [] then []
    else
      var x := fs[|fs| - 1];
      assert forall i :: 0 <= i < |fs| - 1 ==> fs[..|fs| - 1][i] == fs[i];
      Given(fs[..|fs| - 1]) + (if x.value.Some? then [x] else [])
  }

  /** The WHERE pieces and parameters a builder emits for `fs`, taken in
      order: the k-th given filter becomes the piece numbered `$k+1` and the
      k-th parameter is its value. */
  function Emit(fs: seq<Filter>): (seq<Clause>, seq<Param>)
  {
    if fs == [] then ([], [])
    else
      var (where, params) := Emit(fs[..|fs| - 1]);
      var x := fs[|fs| - 1];
      if x.value.Some? then (where + [Clause(x.column, x.op, |params| + 1)], params + [x.value.value])
      else (where, params)
  }

  /** The emitted pieces are well indexed, and the k-th is the k-th given
      filter's, numbered `$k+1`, with its value as the k-th parameter. */
  lemma {:induction false} EmitShape(fs: seq<Filter>)
    ensures WellIndexed(Emit(fs).0, Emit(fs).1)
    ensures var g := Given(fs);
            |Emit(fs).0| == |g| && forall k :: 0 <= k < |g| ==>
              Emit(fs).0[k] == Clause(g[k].column, g[k].op, k + 1) && Emit(fs).1[k] == g[k].value.value
  {
    if fs != [] {
      EmitShape(fs[..|fs| - 1]);
    }
  }

  /** The row satisfies the filter, or the filter is not given. */
  predicate Passes(x: Filter, row: RowView)
  {
    x.value.Some? ==> Compare(x.op, CellOf(row, x.column), x.value.value)
  }

  /** The row passes every filter of `fs`. */
  predicate PassesAll(fs: seq<Filter>, row: RowView)
  {
    forall i :: 0 <= i < |fs| ==> Passes(fs[i], row)
  }

  /** Passing a list of filters depends only on which filters it holds. */
  lemma PassesAllSubset(a: seq<Filter>, b: seq<Filter>, row: RowView)
    requires forall x :: x in a ==> x in b
    ensures PassesAll(b, row) ==> PassesAll(a, row)
  {
    if PassesAll(b, row) {
      forall i | 0 <= i < |a| ensures Passes(a[i], row) {
        assert a[i] in b;
        var j :| 0 <= j < |b| && b[j] == a[i];
      }
    }
  }

  /** A row passes the emitted WHERE exactly when it passes every given filter. */
  lemma {:induction false} EmitMeaning(fs: seq<Filter>, row: RowView)
    ensures Holds(Emit(fs).0, Emit(fs).1, row) <==> PassesAll(fs, row)
  {
    if fs != [] {
      var init := fs[..|fs| - 1];
      var x := fs[|fs| - 1];
      EmitMeaning(init, row);
      EmitShape(init);
      PassesAllSnoc(init, x, row);
      assert fs == init + [x];
      var (where, params) := Emit(init);
      if x.value.Some? {
        HoldsSnoc(where, params, Clause(x.column, x.op, |params| + 1), x.value.value, row);
      }
    }
  }

  lemma PassesAllSnoc(init: seq<Filter>, x: Filter, row: RowView)
    ensures PassesAll(init + [x], row) <==> PassesAll(init, row) && Passes(x, row)
  {
    var fs := init + [x];
    assert forall i :: 0 <= i < |init| ==> fs[i] == init[i];
    assert fs[|init|] == x;
  }

  /** One more piece, numbered after the existing parameters and bound to
      `v`, adds its own condition to the WHERE. */
  lemma HoldsSnoc(where: seq<Clause>, params: seq<Param>, c: Clause, v: Param, row: RowView)
    requires WellIndexed(where, params) && c.index == |params| + 1
    ensures Holds(where + [c], params + [v], row) <==>
              Holds(where, params, row) && Compare(c.op, CellOf(row, c.column), v)
  {
    var where', params' := where + [c], params + [v];
    HoldsExtend(where, params, [v], row);
    assert params'[|params|] == v;
    assert where'[|where|] == c;
    assert forall k :: 0 <= k < |where| ==> where'[k] == where[k];
  }

  /** One `if (x) { query += ' AND col op $k'; params.push(x); paramIndex++; }`
      step of a builder that has so far emitted the pieces of the first `k`
      filters of `all`, and now tests the `k`-th. */
  method AppendIf(ghost all: seq<Filter>, ghost k: nat, where: seq<Clause>, params: seq<Param>, paramIndex: nat,
                  column: Column, op: Op, p: Option<Param>)
    returns (where': seq<Clause>, params': seq<Param>, paramIndex': nat)
    requires k < |all| && all[k] == Filter(column, op, p)
    requires (where, params) == Emit(all[..k]) && paramIndex == |params| + 1
    ensures (where', params') == Emit(all[..k + 1]) && paramIndex' == |params'| + 1
  {
    assert all[..k + 1][..k] == all[..k];
    where', params', paramIndex' := where, params, paramIndex;
    if p.Some? {
      where' := where' + [Clause(column, op, paramIndex')];
      params' := params' + [p.value];
      paramIndex' := paramIndex' + 1;
    }
  }

  /** Parameters appended after the last placeholder do not change the
      meaning of a well-indexed fragment: the count query and the paged
      query, which differ by `[limit, offset]`, select the same rows. */
  lemma HoldsExtend(where: seq<Clause>, params: seq<Param>, extra: seq<Param>, row: RowView)
    requires WellIndexed(where, params)
    ensures Holds(where, params + extra, row) <==> Holds(where, params, row)
  {
    forall k | 0 <= k < |where|
      ensures ClauseHolds(where[k], params + extra, row) <==> ClauseHolds(where[k], params, row)
    {
      assert (params + extra)[where[k].index - 1] == params[where[k].index - 1];
    }
  }
}
