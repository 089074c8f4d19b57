/** The customers table (orders with customer feedback) and the queries
    the customer model issues against it. Dates are day numbers, timestamps
    integer milliseconds. */
module CustomerModel {
  import opened Common
  import opened Query

  const NOUVEAU: string := "Nouveau"
  const RECURRENT: string := "Récurrent"

  /** The eleven columns `update` rewrites. */
  datatype CustomerFields = CustomerFields(
    date: int,
    telephone: string,
    nomClient: string,
    pointVente: string,
    montantCommande: int,
    typeClient: string,
    commentConnu: Option<string>,
    commentaireClient: Option<string>,
    noteQualite: Option<real>,
    notePrix: Option<real>,
    noteService: Option<real>)

  /** A row of `customers`: the editable columns plus the ones only `create`
      and the database set. */
  datatype Customer = Customer(
    id: nat,
    activityId: Option<int>,
    fields: CustomerFields,
    createdBy: nat,
    createdAt: int)

  /** The filter object the routes hand to the model; each builder reads the
      keys it knows. Empty text and `None` are absent (falsy) filters. */
  datatype CustomerFilters = CustomerFilters(
    activityId: Option<int>,
    date: Option<int>,
    dateDebut: Option<int>,
    dateFin: Option<int>,
    pointVente: string,
    telephone: string,
    nomClient: string,
    typeClient: string)

  function View(c: Customer): RowView
  {
    map[ActivityId := (if c.activityId.Some? then IntCell(c.activityId.value) else Null),
        Date := IntCell(c.fields.date),
        PointVente := TextCell(c.fields.pointVente),
        TypeClient := TextCell(c.fields.typeClient),
        Telephone := TextCell(c.fields.telephone),
        NomClient := TextCell(c.fields.nomClient)]
  }

  function TextFilter(s: string): Option<Param>
  {
    if s != "" then Some(Text(s)) else None
  }

  function LikeFilter(s: string): Option<Param>
  {
    if s != "" then Some(Text("%" + s + "%")) else None
  }

  function IntFilter(o: Option<int>): Option<Param>
  {
    if o.Some? then Some(Int(o.value)) else None
  }

  /** The rows `findAll` is meant to return: equality on each given filter. */
  predicate ListMatch(f: CustomerFilters, c: Customer)
  {
    && (f.activityId.Some? ==> c.activityId == f.activityId)
    && (f.date.Some? ==> c.fields.date == f.date.value)
    && (f.pointVente != "" ==> c.fields.pointVente == f.pointVente)
    && (f.typeClient != "" ==> c.fields.typeClient == f.typeClient)
  }

  /** The rows of the paged listing: substring search on phone and name,
      equality on outlet and type, inclusive date bounds. */
  predicate PageMatch(f: CustomerFilters, c: Customer)
  {
    && (f.telephone != "" ==> ContainsIgnoreCase(c.fields.telephone, f.telephone))
    && (f.nomClient != "" ==> ContainsIgnoreCase(c.fields.nomClient, f.nomClient))
    && (f.pointVente != "" ==> c.fields.pointVente == f.pointVente)
    && (f.typeClient != "" ==> c.fields.typeClient == f.typeClient)
    && (f.dateDebut.Some? ==> c.fields.date >= f.dateDebut.value)
    && (f.dateFin.Some? ==> c.fields.date <= f.dateFin.value)
  }

  /** The rows the statistics aggregate: every filter of both listings. */
  predicate StatsMatch(f: CustomerFilters, c: Customer)
  {
    ListMatch(f, c) && PageMatch(f, c)
  }

  /** The filters of `findAll`, in the order it tests them. */
  function ListFilters(f: CustomerFilters): seq<Filter>
  {
    [Filter(ActivityId, Eq, IntFilter(f.activityId)),
     Filter(Date, Eq, IntFilter(f.date)),
     Filter(PointVente, Eq, TextFilter(f.pointVente)),
     Filter(TypeClient, Eq, TextFilter(f.typeClient))]
  }

  /** `Customer.findAll`: equality filters on activity, date, outlet and type,
      newest first. */
  method FindAll(f: CustomerFilters) returns (s: Statement)
    ensures s.kind == SelectRows && s.limitOffset == None
    ensures s.orderBy == [SortKey(ByCreatedAt, true)]
    ensures (s.where, s.params) == Emit(ListFilters(f))
  {
    var where: seq<Clause>, params: seq<Param>, paramIndex: nat := [], [], 1;
    ghost var all := ListFilters(f);
    where, params, paramIndex := AppendIf(all, 0, where, params, paramIndex, ActivityId, Eq, IntFilter(f.activityId));
    where, params, paramIndex := AppendIf(all, 1, where, params, paramIndex, Date, Eq, IntFilter(f.date));
    where, params, paramIndex := AppendIf(all, 2, where, params, paramIndex, PointVente, Eq, TextFilter(f.pointVente));
    where, params, paramIndex := AppendIf(all, 3, where, params, paramIndex, TypeClient, Eq, TextFilter(f.typeClient));
    assert all[..|all|] == all;
    s := Statement(SelectRows, where, [SortKey(ByCreatedAt, true)], None, params);
  }

  /** `findAll` returns exactly the rows equal to every given filter, and
      binds no parameter when no filter is given. */
  lemma ListQueryMeaning(f: CustomerFilters, c: Customer)
    ensures Holds(Emit(ListFilters(f)).0, Emit(ListFilters(f)).1, View(c)) <==> ListMatch(f, c)
    ensures Emit(ListFilters(f)).1 == [] <==> f.activityId.None? && f.date.None? && f.pointVente == "" && f.typeClient == ""
  {
    var fs := ListFilters(f);
    EmitMeaning(fs, View(c));
    ListFiltersMeaning(f, c);
    assert fs[0].value.None? && fs[1].value.None? && fs[2].value.None? && fs[3].value.None?
           <==> forall i :: 0 <= i < |fs| ==> fs[i].value.None?;
    EmitShape(fs);
    assert Emit(fs).1 == [] <==> Given(fs) == [];
  }

  lemma ListFiltersMeaning(f: CustomerFilters, c: Customer)
    ensures PassesAll(ListFilters(f), View(c)) <==> ListMatch(f, c)
  {
    var fs, row := ListFilters(f), View(c);
    assert CellOf(row, ActivityId) == (if c.activityId.Some? then IntCell(c.activityId.value) else Null);
    assert CellOf(row, Date) == IntCell(c.fields.date);
    assert CellOf(row, PointVente) == TextCell(c.fields.pointVente);
    assert CellOf(row, TypeClient) == TextCell(c.fields.typeClient);
    assert PassesAll(fs, row) <==> Passes(fs[0], row) && Passes(fs[1], row) && Passes(fs[2], row) && Passes(fs[3], row);
  }

  /** The filters of `findAllWithPagination`, in the order it tests them:
      substring search on phone and name, equality on outlet and type, then
      the inclusive date bounds. */
  function PageFilters(f: CustomerFilters): seq<Filter>
  {
    [Filter(Telephone, ILike, LikeFilter(f.telephone)),
     Filter(NomClient, ILike, LikeFilter(f.nomClient)),
     Filter(PointVente, Eq, TextFilter(f.pointVente)),
     Filter(TypeClient, Eq, TextFilter(f.typeClient)),
     Filter(Date, Ge, IntFilter(f.dateDebut)),
     Filter(Date, Le, IntFilter(f.dateFin))]
  }

  /** `Customer.findAllWithPagination`: the count query and the paged query
      share one WHERE fragment and its parameters; the paged query alone
      sorts by date then creation time, newest first, and appends
      `LIMIT $n OFFSET $n+1` bound to the last two parameters. */
  method FindAllWithPagination(f: CustomerFilters, offset: int, limit: int)
    returns (count: Statement, fetch: Statement)
    ensures count.kind == CountRows && count.orderBy == [] && count.limitOffset == None
    ensures (count.where, count.params) == Emit(PageFilters(f))
    ensures fetch.kind == SelectRows && fetch.where == count.where
    ensures fetch.orderBy == [SortKey(ByDate, true), SortKey(ByCreatedAt, true)]
    ensures fetch.params == count.params + [Int(limit), Int(offset)]
    ensures fetch.limitOffset == Some((|count.params| + 1, |count.params| + 2))
  {
    var where: seq<Clause>, params: seq<Param>, paramIndex: nat := [], [], 1;
    ghost var all := PageFilters(f);
    where, params, paramIndex := AppendIf(all, 0, where, params, paramIndex, Telephone, ILike, LikeFilter(f.telephone));
    where, params, paramIndex := AppendIf(all, 1, where, params, paramIndex, NomClient, ILike, LikeFilter(f.nomClient));
    where, params, paramIndex := AppendIf(all, 2, where, params, paramIndex, PointVente, Eq, TextFilter(f.pointVente));
    where, params, paramIndex := AppendIf(all, 3, where, params, paramIndex, TypeClient, Eq, TextFilter(f.typeClient));
    where, params, paramIndex := AppendIf(all, 4, where, params, paramIndex, Date, Ge, IntFilter(f.dateDebut));
    where, params, paramIndex := AppendIf(all, 5, where, params, paramIndex, Date, Le, IntFilter(f.dateFin));
    assert all[..|all|] == all;
    count := Statement(CountRows, where, [], None, params);
    fetch := Statement(SelectRows, where, [SortKey(ByDate, true), SortKey(ByCreatedAt, true)],
                       Some((paramIndex, paramIndex + 1)), params + [Int(limit), Int(offset)]);
  }

  /** The paged listing and its count select exactly the rows matching the
      page filters. */
  lemma PageQueryMeaning(f: CustomerFilters, c: Customer)
    ensures Holds(Emit(PageFilters(f)).0, Emit(PageFilters(f)).1, View(c)) <==> PageMatch(f, c)
  {
    EmitMeaning(PageFilters(f), View(c));
    PageFiltersMeaning(f, c);
  }

  lemma PageFiltersMeaning(f: CustomerFilters, c: Customer)
    ensures PassesAll(PageFilters(f), View(c)) <==> PageMatch(f, c)
  {
    var fs, row := PageFilters(f), View(c);
    assert CellOf(row, Telephone) == TextCell(c.fields.telephone);
    assert CellOf(row, NomClient) == TextCell(c.fields.nomClient);
    assert CellOf(row, Date) == IntCell(c.fields.date);
    LikeWrapped(f.telephone, c.fields.telephone);
    LikeWrapped(f.nomClient, c.fields.nomClient);
    assert PassesAll(fs, row) <==> (Passes(fs[0], row) && Passes(fs[1], row) && Passes(fs[2], row)
      && Passes(fs[3], row) && Passes(fs[4], row) && Passes(fs[5], row));
  }

  /** The filters of `getStats`, in the order it tests them. */
  function StatsFilters(f: CustomerFilters): seq<Filter>
  {
    [Filter(ActivityId, Eq, IntFilter(f.activityId)),
     Filter(Date, Eq, IntFilter(f.date)),
     Filter(Date, Ge, IntFilter(f.dateDebut)),
     Filter(Date, Le, IntFilter(f.dateFin)),
     Filter(PointVente, Eq, TextFilter(f.pointVente)),
     Filter(Telephone, ILike, LikeFilter(f.telephone)),
     Filter(NomClient, ILike, LikeFilter(f.nomClient)),
     Filter(TypeClient, Eq, TextFilter(f.typeClient))]
  }

  /** The WHERE clause of `Customer.getStats`, built like the listings'. */
  method StatsQuery(f: CustomerFilters) returns (s: Statement)
    ensures s.kind == Aggregate && s.orderBy == [] && s.limitOffset == None
    ensures (s.where, s.params) == Emit(StatsFilters(f))
  {
    var where: seq<Clause>, params: seq<Param>, paramIndex: nat := [], [], 1;
    ghost var all := StatsFilters(f);
    where, params, paramIndex := AppendIf(all, 0, where, params, paramIndex, ActivityId, Eq, IntFilter(f.activityId));
    where, params, paramIndex := AppendIf(all, 1, where, params, paramIndex, Date, Eq, IntFilter(f.date));
    where, params, paramIndex := AppendIf(all, 2, where, params, paramIndex, Date, Ge, IntFilter(f.dateDebut));
    where, params, paramIndex := AppendIf(all, 3, where, params, paramIndex, Date, Le, IntFilter(f.dateFin));
    where, params, paramIndex := AppendIf(all, 4, where, params, paramIndex, PointVente, Eq, TextFilter(f.pointVente));
    where, params, paramIndex := AppendIf(all, 5, where, params, paramIndex, Telephone, ILike, LikeFilter(f.telephone));
    where, params, paramIndex := AppendIf(all, 6, where, params, paramIndex, NomClient, ILike, LikeFilter(f.nomClient));
    where, params, paramIndex := AppendIf(all, 7, where, params, paramIndex, TypeClient, Eq, TextFilter(f.typeClient));
    assert all[..|all|] == all;
    s := Statement(Aggregate, where, [], None, params);
  }

  /** The statistics aggregate exactly the rows matching every filter of
      both listings. */
  lemma StatsQueryMeaning(f: CustomerFilters, c: Customer)
    ensures Holds(Emit(StatsFilters(f)).0, Emit(StatsFilters(f)).1, View(c)) <==> StatsMatch(f, c)
  {
    EmitMeaning(StatsFilters(f), View(c));
    StatsFiltersMeaning(f, c);
  }

  /** The statistics filters are those of the two listings together. */
  lemma StatsFiltersMeaning(f: CustomerFilters, c: Customer)
    ensures PassesAll(StatsFilters(f), View(c)) <==> StatsMatch(f, c)
  {
    var row := View(c);
    ListFiltersMeaning(f, c);
    PageFiltersMeaning(f, c);
    PassesAllSubset(ListFilters(f), StatsFilters(f), row);
    PassesAllSubset(PageFilters(f), StatsFilters(f), row);
    if PassesAll(ListFilters(f), row) && PassesAll(PageFilters(f), row) {
      PassesAllSubset(StatsFilters(f), ListFilters(f) + PageFilters(f), row);
      assert PassesAll(ListFilters(f) + PageFilters(f), row) by {
        var ab := ListFilters(f) + PageFilters(f);
        forall i | 0 <= i < |ab| ensures Passes(ab[i], row) {
          if i >= 4 { assert ab[i] == PageFilters(f)[i - 4]; }
        }
      }
    }
  }

  /** Rows of `rows` whose type is `t`: `COUNT(CASE WHEN type_client = t THEN 1 END)`. */
  function CountType(rows: seq<Customer>, t: string): (n: nat)
    ensures n <= |rows|
    ensures n > 0 <==> exists i :: 0 <= i < |rows| && rows[i].fields.typeClient == t
  {
    if rows == [] then 0
    else
      var init := rows[..|rows| - 1];
      assert forall i :: 0 <= i < |init| ==> init[i] == rows[i];
      CountType(init, t) + (if rows[|rows| - 1].fields.typeClient == t then 1 else 0)
  }

  /** `SUM(montant_commande)`, which SQL reports as NULL on no rows. */
  function SumAmount(rows: seq<Customer>): (r: Option<int>)
    ensures r.None? <==> rows == []
  {
    if rows == [] then None
    else
      var rest := SumAmount(rows[..|rows| - 1]);
      Some((if rest.Some? then rest.value else 0) + rows[|rows| - 1].fields.montantCommande)
  }

  /** The total amount, with SQL's NULL read as 0 as `getStats` does. */
  function AmountOf(rows: seq<Customer>): int
  {
    var sum := SumAmount(rows);
    if sum.Some? then sum.value else 0
  }

  /** The total of two runs of rows is the sum of their totals: the order
      in which the database adds the amounts does not matter. */
  lemma {:induction false} AmountConcat(a: seq<Customer>, b: seq<Customer>)
    ensures AmountOf(a + b) == AmountOf(a) + AmountOf(b)
    decreases |b|
  {
    if b != [] {
      var ab := a + b;
      var init := b[..|b| - 1];
      assert ab[..|ab| - 1] == a + init && ab[|ab| - 1] == b[|b| - 1];
      AmountConcat(a, init);
    } else {
      assert a + b == a;
    }
  }

  /** No row is counted both as new and as returning. */
  lemma {:induction false} CountTypesDisjoint(rows: seq<Customer>)
    ensures CountType(rows, NOUVEAU) + CountType(rows, RECURRENT) <= |rows|
  {
    if rows != [] {
      CountTypesDisjoint(rows[..|rows| - 1]);
      assert NOUVEAU != RECURRENT by { assert NOUVEAU[0] != RECURRENT[0]; }
    }
  }

  /** `Math.round(n / total * 100)`, or 0 when `total` is 0: the percentage
      nearest to `n / total`, halves rounded up. */
  function RoundPercent(n: nat, total: nat): (r: int)
    ensures total == 0 ==> r == 0
    ensures total > 0 ==> 2 * total * r <= 200 * n + total < 2 * total * (r + 1)
    ensures n <= total ==> 0 <= r <= 100
  {
    if total > 0 then
      var x, d := 200 * n + total, 2 * total;
      DivBounds(x, d);
      assert d * (x / d + 1) == d * (x / d) + d;
      assert n <= total ==> x / d <= 100 by {
        if n <= total {
          assert d * (x / d) < d * 101;
          CancelLess(d, x / d, 101);
        }
      }
      x / d
    else 0
  }

  /** Euclidean division brackets its dividend. */
  lemma DivBounds(x: nat, d: nat)
    requires d > 0
    ensures d * (x / d) <= x < d * (x / d) + d
  {
  }

  /** A positive factor can be cancelled from a strict inequality. */
  lemma CancelLess(d: int, a: int, b: int)
    requires d > 0 && d * a < d * b
    ensures a < b
  {
  }

  /** The numeric fields of the `getStats` result; the averages, formatted
      as one-decimal strings, are not part of this model. */
  datatype Stats = Stats(
    totalClients: nat,
    montantTotal: int,
    nouveauxClients: nat,
    clientsRecurrents: nat,
    tauxNouveaux: int,
    tauxRecurrents: int)

  /** `getStats` on the rows its WHERE clause selects: the counts, the total
      amount (0 when SQL's SUM is NULL), and the two rounded rates. */
  function StatsOf(rows: seq<Customer>): (r: Stats)
    ensures r.totalClients == |rows|
    ensures r.nouveauxClients == CountType(rows, NOUVEAU) && r.clientsRecurrents == CountType(rows, RECURRENT)
    ensures r.montantTotal == AmountOf(rows)
    ensures r.nouveauxClients + r.clientsRecurrents <= r.totalClients
    ensures 0 <= r.tauxNouveaux <= 100 && 0 <= r.tauxRecurrents <= 100
    ensures rows == [] ==> r == Stats(0, 0, 0, 0, 0, 0)
    ensures rows != [] ==>
              2 * |rows| * r.tauxNouveaux <= 200 * r.nouveauxClients + |rows| < 2 * |rows| * (r.tauxNouveaux + 1)
    ensures rows != [] ==>
              2 * |rows| * r.tauxRecurrents <= 200 * r.clientsRecurrents + |rows| < 2 * |rows| * (r.tauxRecurrents + 1)
  {
    var total := |rows|;
    var nouveaux := CountType(rows, NOUVEAU);
    var recurrents := CountType(rows, RECURRENT);
    CountTypesDisjoint(rows);
    Stats(total, AmountOf(rows), nouveaux, recurrents,
          RoundPercent(nouveaux, total), RoundPercent(recurrents, total))
  }

  /** What `checkPhoneExists` answers. */
  datatype PhoneCheck = PhoneCheck(found: bool, count: nat, commentConnu: Option<string>)

  /** Rows with exactly this phone number. */
  function CountPhone(rows: seq<Customer>, phone: string): (n: nat)
    ensures n <= |rows|
    ensures n > 0 <==> exists i :: 0 <= i < |rows| && rows[i].fields.telephone == phone
  {
    if rows == [] then 0
    else
      var init := rows[..|rows| - 1];
      assert forall i :: 0 <= i < |init| ==> init[i] == rows[i];
      CountPhone(init, phone) + (if rows[|rows| - 1].fields.telephone == phone then 1 else 0)
  }

  /** A row with this phone number and a non-null `comment_connu`. */
  predicate HasComment(c: Customer, phone: string)
  {
    c.fields.telephone == phone && c.fields.commentConnu.Some?
  }

  /** The row `ORDER BY created_at ASC LIMIT 1` picks among those with this
      phone and a comment: one created no later than any other, the first
      such in table order on ties. */
  function Earliest(rows: seq<Customer>, phone: string): (r: Option<nat>)
    ensures r.Some? ==> r.value < |rows| && HasComment(rows[r.value], phone)
    ensures r.Some? ==> forall j :: 0 <= j < |rows| && HasComment(rows[j], phone) ==>
                          rows[r.value].createdAt <= rows[j].createdAt
    ensures r.None? <==> forall j :: 0 <= j < |rows| ==> !HasComment(rows[j], phone)
  {
    if rows == [] then None
    else
      var init := rows[..|rows| - 1];
      var last := |rows| - 1;
      var r := Earliest(init, phone);
      assert forall i :: 0 <= i < |init| ==> init[i] == rows[i];
      if HasComment(rows[last], phone) && (r.None? || rows[last].createdAt < rows[r.value].createdAt)
      then Some(last)
      else r
  }

  /** A table of customers as the database holds it: rows in insertion order
      and the next value of the id sequence. */
  class CustomerTable {
    var rows: seq<Customer>
    var nextId: nat

    /** Ids are unique and below the next id to hand out. */
    predicate Valid()
      reads this
    {
      && 1 <= nextId
      && (forall i :: 0 <= i < |rows| ==> rows[i].id < nextId)
      && (forall i, j :: 0 <= i < j < |rows| ==> rows[i].id != rows[j].id)
    }

    constructor()
      ensures Valid() && rows == [] && nextId == 1
    {
      rows := [];
      nextId := 1;
    }

    /** The position of the row with this id, if any. */
    function IndexOf(id: nat): (r: Option<nat>)
      reads this
      ensures r.Some? ==> r.value < |rows| && rows[r.value].id == id
      ensures r.None? <==> forall i :: 0 <= i < |rows| ==> rows[i].id != id
    {
      IndexIn(rows, id)
    }

    /** `Customer.findById`: the row with this id, or none. */
    function FindById(id: nat): (r: Option<Customer>)
      reads this
      ensures r.Some? ==> r.value in rows && r.value.id == id
      ensures r.None? <==> forall c :: c in rows ==> c.id != id
    {
      var i := IndexOf(id);
      if i.Some? then Some(rows[i.value]) else None
    }

    /** `Customer.create`: inserts a row with a fresh id, stamped `now`, and
        returns it. */
    method Create(activityId: Option<int>, fields: CustomerFields, createdBy: nat, now: int)
      returns (c: Customer)
      requires Valid()
      modifies this
      ensures Valid()
      ensures c == Customer(old(nextId), activityId, fields, createdBy, now)
      ensures rows == old(rows) + [c] && nextId == old(nextId) + 1
    {
      c := Customer(nextId, activityId, fields, createdBy, now);
      rows := rows + [c];
      nextId := nextId + 1;
    }

    /** `Customer.update`: rewrites the eleven editable columns of the row
        with this id, returns the new row, and leaves every other column and
        every other row as it was; none when there is no such row. */
    method Update(id: nat, fields: CustomerFields) returns (r: Option<Customer>)
      requires Valid()
      modifies this
      ensures Valid() && nextId == old(nextId) && |rows| == |old(rows)|
      ensures forall i :: 0 <= i < |rows| ==>
                rows[i] == if old(rows)[i].id == id then old(rows)[i].(fields := fields) else old(rows)[i]
      ensures r == if old(FindById(id)).Some? then Some(old(FindById(id)).value.(fields := fields)) else None
    {
      var i := IndexOf(id);
      if i.Some? {
        var c := rows[i.value].(fields := fields);
        rows := rows[i.value := c];
        r := Some(c);
      } else {
        r := None;
      }
    }

    /** `Customer.delete`: removes the row with this id and returns it; none
        and no change when there is no such row. */
    method Delete(id: nat) returns (r: Option<Customer>)
      requires Valid()
      modifies this
      ensures Valid() && nextId == old(nextId)
      ensures r == old(FindById(id))
      ensures forall c :: c in rows <==> c in old(rows) && c.id != id
      ensures |rows| == |old(rows)| - (if r.Some? then 1 else 0)
      ensures r.None? ==> rows == old(rows)
      ensures r.Some? ==> var k := old(IndexOf(id)).value; rows == old(rows)[..k] + old(rows)[k + 1..]
    {
      var i := IndexOf(id);
      if i.Some? {
        r := Some(rows[i.value]);
        rows := rows[..i.value] + rows[i.value + 1..];
      } else {
        r := None;
      }
    }

    /** `Customer.checkPhoneExists`: how many rows carry this exact phone
        number and, when there is one, the earliest non-null
        `comment_connu` among them. */
    method CheckPhoneExists(phone: string) returns (r: PhoneCheck)
      ensures r.count == CountPhone(rows, phone)
      ensures r.found <==> exists i :: 0 <= i < |rows| && rows[i].fields.telephone == phone
      ensures !r.found ==> r.commentConnu.None?
      ensures r.commentConnu.Some? ==>
                exists i :: 0 <= i < |rows| && HasComment(rows[i], phone) && rows[i].fields.commentConnu == r.commentConnu
                  && forall j :: 0 <= j < |rows| && HasComment(rows[j], phone) ==> rows[i].createdAt <= rows[j].createdAt
      ensures r.commentConnu.None? ==> forall i :: 0 <= i < |rows| ==> !HasComment(rows[i], phone)
    {
      var count := CountPhone(rows, phone);
      var found := count > 0;
      var comment: Option<string> := None;
      if found {
        var first := Earliest(rows, phone);
        if first.Some? {
          comment := rows[first.value].fields.commentConnu;
        }
      } else {
        assert Earliest(rows, phone).None?;
      }
      r := PhoneCheck(found, count, comment);
    }
  }

  /** The first position of a row with this id. */
  function IndexIn(rows: seq<Customer>, id: nat): (r: Option<nat>)
    ensures r.Some? ==> r.value < |rows| && rows[r.value].id == id
    ensures r.None? <==> forall i :: 0 <= i < |rows| ==> rows[i].id != id
  {
    if rows == [] then None
    else if rows[0].id == id then Some(0)
    else
      var r := IndexIn(rows[1..], id);
      if r.Some? then Some(r.value + 1) else None
  }
}
