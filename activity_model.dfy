/** The activities table (one outlet visit per day) and the queries the
    activity model issues against it. */
module ActivityModel {
  import opened Common
  import opened Query

  /** The eight columns `update` rewrites. The sales score is kept as the
      text the client sent, which the database reads as a decimal. */
  datatype ActivityFields = ActivityFields(
    date: int,
    pointVente: string,
    responsable: string,
    noteVentes: Option<string>,
    plaintesClient: string,
    produitsManquants: string,
    commentaireLivreurs: string,
    commentaire: string)

  /** A row of `activities`. */
  datatype Activity = Activity(id: nat, fields: ActivityFields, createdBy: nat, createdAt: int)

  /** The listing filters; `None` and the empty string are absent. */
  datatype ActivityFilters = ActivityFilters(dateDebut: Option<int>, dateFin: Option<int>, pointVente: string)

  function View(a: Activity): RowView
  {
    map[Date := IntCell(a.fields.date), PointVente := TextCell(a.fields.pointVente)]
  }

  /** The rows the listing is meant to return: the two inclusive date bounds,
      each on its own, and the outlet. */
  predicate ListMatch(f: ActivityFilters, a: Activity)
  {
    && (f.dateDebut.Some? ==> a.fields.date >= f.dateDebut.value)
    && (f.dateFin.Some? ==> a.fields.date <= f.dateFin.value)
    && (f.pointVente != "" ==> a.fields.pointVente == f.pointVente)
  }

  /** The filters of `findAll`, in the order it tests them. */
  function ListFilters(f: ActivityFilters): seq<Filter>
  {
    [Filter(Date, Ge, if f.dateDebut.Some? then Some(Int(f.dateDebut.value)) else None),
     Filter(Date, Le, if f.dateFin.Some? then Some(Int(f.dateFin.value)) else None),
     Filter(PointVente, Eq, if f.pointVente != "" then Some(Text(f.pointVente)) else None)]
  }

  /** `Activity.findAll`: date bounds then outlet, sorted by date and then
      creation time, newest first. */
  method FindAll(f: ActivityFilters) returns (s: Statement)
    ensures s.kind == SelectRows && s.limitOffset == None
    ensures s.orderBy == [SortKey(ByDate, true), SortKey(ByCreatedAt, true)]
    ensures (s.where, s.params) == Emit(ListFilters(f))
  {
    var where: seq<Clause>, params: seq<Param>, paramIndex: nat := [], [], 1;
    ghost var all := ListFilters(f);
    var fromDate := if f.dateDebut.Some? then Some(Int(f.dateDebut.value)) else None;
    where, params, paramIndex := AppendIf(all, 0, where, params, paramIndex, Date, Ge, fromDate);
    var toDate := if f.dateFin.Some? then Some(Int(f.dateFin.value)) else None;
    where, params, paramIndex := AppendIf(all, 1, where, params, paramIndex, Date, Le, toDate);
    var outlet := if f.pointVente != "" then Some(Text(f.pointVente)) else None;
    where, params, paramIndex := AppendIf(all, 2, where, params, paramIndex, PointVente, Eq, outlet);
    assert all[..|all|] == all;
    s := Statement(SelectRows, where, [SortKey(ByDate, true), SortKey(ByCreatedAt, true)], None, params);
  }

  /** The listing returns exactly the rows within the given bounds and
      outlet; with no filter it binds no parameter and returns every row. */
  lemma ListQueryMeaning(f: ActivityFilters, a: Activity)
    ensures Holds(Emit(ListFilters(f)).0, Emit(ListFilters(f)).1, View(a)) <==> ListMatch(f, a)
    ensures Emit(ListFilters(f)).1 == [] <==> f.dateDebut.None? && f.dateFin.None? && f.pointVente == ""
    ensures f == ActivityFilters(None, None, "") ==> Holds(Emit(ListFilters(f)).0, Emit(ListFilters(f)).1, View(a))
  {
    var fs, row := ListFilters(f), View(a);
    EmitMeaning(fs, row);
    assert CellOf(row, Date) == IntCell(a.fields.date);
    assert CellOf(row, PointVente) == TextCell(a.fields.pointVente);
    assert PassesAll(fs, row) <==> Passes(fs[0], row) && Passes(fs[1], row) && Passes(fs[2], row);
    assert fs[0].value.None? && fs[1].value.None? && fs[2].value.None?
           <==> forall i :: 0 <= i < |fs| ==> fs[i].value.None?;
    EmitShape(fs);
    assert Emit(fs).1 == [] <==> Given(fs) == [];
  }

  /** `xs` with `x` added, kept strictly ascending. */
  function Insert(xs: seq<string>, x: string): (r: seq<string>)
    requires StrictlyAscending(xs)
    ensures StrictlyAscending(r)
    ensures forall y :: y in r <==> y in xs || y == x
  {
    if xs == [] then [x]
    else if x == xs[0] then xs
    else if Below(x, xs[0]) then
      forall j | 0 <= j < |xs| ensures Below(x, xs[j]) {
        if j > 0 { BelowTransitive(x, xs[0], xs[j]); }
      }
      [x] + xs
    else
      var rest := Insert(xs[1..], x);
      BelowTotal(x, xs[0]);
      var r := [xs[0]] + rest;
      forall j | 0 < j < |r| ensures Below(r[0], r[j]) {
        assert r[j] == rest[j - 1] && rest[j - 1] in rest;
        if r[j] != x {
          var k :| 1 <= k < |xs| && xs[k] == r[j];
        }
      }
      r
  }

  /** The values of `values`, each once, in ascending order:
      `SELECT DISTINCT ... ORDER BY ...`. */
  function DistinctSorted(values: seq<string>): (r: seq<string>)
    ensures StrictlyAscending(r)
    ensures forall y :: y in r <==> y in values
  {
    if values == [] then []
    else
      var init := values[..|values| - 1];
      assert values == init + [values[|values| - 1]];
      Insert(DistinctSorted(init), values[|values| - 1])
  }

  function PointsVente(rows: seq<Activity>): (r: seq<string>)
    ensures |r| == |rows| && forall i :: 0 <= i < |rows| ==> r[i] == rows[i].fields.pointVente
  {
    if rows == [] then [] else [rows[0].fields.pointVente] + PointsVente(rows[1..])
  }

  function Responsables(rows: seq<Activity>): (r: seq<string>)
    ensures |r| == |rows| && forall i :: 0 <= i < |rows| ==> r[i] == rows[i].fields.responsable
  {
    if rows == [] then [] else [rows[0].fields.responsable] + Responsables(rows[1..])
  }

  /** The first position of a row with this id. */
  function IndexIn(rows: seq<Activity>, id: nat): (r: Option<nat>)
    ensures r.Some? ==> r.value < |rows| && rows[r.value].id == id
    ensures r.None? <==> forall i :: 0 <= i < |rows| ==> rows[i].id != id
  {
    if rows == [] then None
    else if rows[0].id == id then Some(0)
    else
      var r := IndexIn(rows[1..], id);
      if r.Some? then Some(r.value + 1) else None
  }

  /** The activities table: rows in insertion order and the next id. */
  class ActivityTable {
    var rows: seq<Activity>
    var nextId: nat

    /** Ids are unique and below the next id to hand out. */
    predicate Valid()
      reads this
    {
      && 1 <= nextId
      && (forall i :: 0 <= i < |rows| ==> rows[i].id < nextId)
      && (forall i, j :: 0 <= i < j < |rows| ==> rows[i].id != rows[j].id)
    }

    constructor()
      ensures Valid() && rows == [] && nextId == 1
    {
      rows := [];
      nextId := 1;
    }

    /** `Activity.findById`: the row with this id, or none. */
    function FindById(id: nat): (r: Option<Activity>)
      reads this
      ensures r.Some? ==> r.value in rows && r.value.id == id
      ensures r.None? <==> forall a :: a in rows ==> a.id != id
    {
      var i := IndexIn(rows, id);
      if i.Some? then Some(rows[i.value]) else None
    }

    /** `Activity.create`: inserts a row with a fresh id, stamped `now`. */
    method Create(fields: ActivityFields, createdBy: nat, now: int) returns (a: Activity)
      requires Valid()
      modifies this
      ensures Valid()
      ensures a == Activity(old(nextId), fields, createdBy, now)
      ensures rows == old(rows) + [a] && nextId == old(nextId) + 1
    {
      a := Activity(nextId, fields, createdBy, now);
      rows := rows + [a];
      nextId := nextId + 1;
    }

    /** `Activity.update`: rewrites the eight content columns of the row with
        this id; its id, author and creation time and all other rows stay as
        they were. None when there is no such row. */
    method Update(id: nat, fields: ActivityFields) returns (r: Option<Activity>)
      requires Valid()
      modifies this
      ensures Valid() && nextId == old(nextId) && |rows| == |old(rows)|
      ensures forall i :: 0 <= i < |rows| ==>
                rows[i] == if old(rows)[i].id == id then old(rows)[i].(fields := fields) else old(rows)[i]
      ensures r == if old(FindById(id)).Some? then Some(old(FindById(id)).value.(fields := fields)) else None
    {
      var i := IndexIn(rows, id);
      if i.Some? {
        var a := rows[i.value].(fields := fields);
        rows := rows[i.value := a];
        r := Some(a);
      } else {
        r := None;
      }
    }

    /** `Activity.delete`: removes exactly the row with this id and returns
        it; none and no change when there is no such row. */
    method Delete(id: nat) returns (r: Option<Activity>)
      requires Valid()
      modifies this
      ensures Valid() && nextId == old(nextId)
      ensures r == old(FindById(id))
      ensures forall a :: a in rows <==> a in old(rows) && a.id != id
      ensures |rows| == |old(rows)| - (if r.Some? then 1 else 0)
      ensures r.None? ==> rows == old(rows)
      ensures r.Some? ==> var k := old(IndexIn(rows, id)).value; rows == old(rows)[..k] + old(rows)[k + 1..]
    {
      var i := IndexIn(rows, id);
      if i.Some? {
        r := Some(rows[i.value]);
        rows := rows[..i.value] + rows[i.value + 1..];
      } else {
        r := None;
      }
    }

    /** `Activity.getDistinctPointsVente`: every outlet of the table once, in
        ascending order. */
    method GetDistinctPointsVente() returns (r: seq<string>)
      ensures StrictlyAscending(r)
      ensures forall p :: p in r <==> exists a :: a in rows && a.fields.pointVente == p
    {
      var values := PointsVente(rows);
      r := DistinctSorted(values);
      forall p | p in r ensures exists a :: a in rows && a.fields.pointVente == p {
        var i :| 0 <= i < |values| && values[i] == p;
        assert rows[i] in rows;
      }
    }

    /** `Activity.getDistinctResponsables`: every owner name once, ascending. */
    method GetDistinctResponsables() returns (r: seq<string>)
      ensures StrictlyAscending(r)
      ensures forall p :: p in r <==> exists a :: a in rows && a.fields.responsable == p
    {
      var values := Responsables(rows);
      r := DistinctSorted(values);
      forall p | p in r ensures exists a :: a in rows && a.fields.responsable == p {
        var i :| 0 <= i < |values| && values[i] == p;
        assert rows[i] in rows;
      }
    }
  }
}
