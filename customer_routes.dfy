/** The `/api/customers` routes: query-string to filter mapping, paging
    arithmetic, and the validation and permission decisions taken before the
    customer model is called. Every route runs behind `authenticateToken`,
    so a user is always present. */
module CustomerRoutes {
  import opened Common
  import opened CustomerModel

  const NOT_FOUND: string := "Client non trouvé"
  const REQUIRED: string := "Les champs date, téléphone, nom, point de vente, montant et type client sont requis"
  const BAD_TYPE: string := "Le type client doit être \"Nouveau\" ou \"Récurrent\""
  const NO_EDIT: string := "Vous n'avez pas les permissions pour modifier ce client"
  const TOO_OLD: string := "Vous ne pouvez supprimer que les clients créés dans les 48 dernières heures"
  const NO_DELETE: string := "Vous n'avez pas les permissions pour supprimer ce client"
  const CREATE_FAILED: string := "Erreur serveur lors de la création du client: "
  const UPDATE_FAILED: string := "Erreur serveur lors de la modification du client: "
  const LIST_FAILED: string := "Erreur serveur lors de la récupération des clients"
  const PHONE_REQUIRED: string := "Le numéro de téléphone est requis"

  const DEFAULT_PAGE: int := 1
  const DEFAULT_PAGE_SIZE: int := 50

  /** The query string of `GET /all`; empty text and `None` are absent. */
  datatype AllQuery = AllQuery(
    telephone: string, nom: string, pointVente: string, typeClient: string,
    dateDebut: Option<int>, dateFin: Option<int>,
    page: Option<int>, pageSize: Option<int>)

  /** `GET /all` fills the filter object key by key from the non-empty
      parameters; the parameter `nom` fills the `nom_client` key. */
  method AllFilters(q: AllQuery) returns (f: CustomerFilters)
    ensures f.activityId.None? && f.date.None?
    ensures f.telephone == q.telephone && f.nomClient == q.nom
    ensures f.pointVente == q.pointVente && f.typeClient == q.typeClient
    ensures f.dateDebut == q.dateDebut && f.dateFin == q.dateFin
  {
    f := CustomerFilters(None, None, None, None, "", "", "", "");
    if q.telephone != "" { f := f.(telephone := q.telephone); }
    if q.nom != "" { f := f.(nomClient := q.nom); }
    if q.pointVente != "" { f := f.(pointVente := q.pointVente); }
    if q.typeClient != "" { f := f.(typeClient := q.typeClient); }
    if q.dateDebut.Some? { f := f.(dateDebut := q.dateDebut); }
    if q.dateFin.Some? { f := f.(dateFin := q.dateFin); }
  }

  /** `GET /` passes activity, day, outlet and type to `findAll`. */
  method ListFiltersOf(activityId: Option<int>, date: Option<int>, pointVente: string, typeClient: string)
    returns (f: CustomerFilters)
    ensures f.activityId == activityId && f.date == date
    ensures f.pointVente == pointVente && f.typeClient == typeClient
    ensures f.dateDebut.None? && f.dateFin.None? && f.telephone == "" && f.nomClient == ""
  {
    f := CustomerFilters(None, None, None, None, "", "", "", "");
    if activityId.Some? { f := f.(activityId := activityId); }
    if date.Some? { f := f.(date := date); }
    if pointVente != "" { f := f.(pointVente := pointVente); }
    if typeClient != "" { f := f.(typeClient := typeClient); }
  }

  /** `GET /stats` passes only activity, day and outlet: the statistics
      route has no type filter. */
  method StatsFiltersOf(activityId: Option<int>, date: Option<int>, pointVente: string)
    returns (f: CustomerFilters)
    ensures f.activityId == activityId && f.date == date && f.pointVente == pointVente
    ensures f.typeClient == "" && f.dateDebut.None? && f.dateFin.None? && f.telephone == "" && f.nomClient == ""
  {
    f := CustomerFilters(None, None, None, None, "", "", "", "");
    if activityId.Some? { f := f.(activityId := activityId); }
    if date.Some? { f := f.(date := date); }
    if pointVente != "" { f := f.(pointVente := pointVente); }
  }

  /** `offset = (page - 1) * pageSize` and `limit = pageSize`, with page 1
      and 50 rows per page when the parameters are absent. */
  function Paging(page: Option<int>, pageSize: Option<int>): (r: (int, int))
    ensures r.1 == (if pageSize.Some? then pageSize.value else DEFAULT_PAGE_SIZE)
    ensures r.0 == ((if page.Some? then page.value else DEFAULT_PAGE) - 1) * r.1
    ensures page.None? && pageSize.None? ==> r == (0, 50)
  {
    var p := if page.Some? then page.value else DEFAULT_PAGE;
    var size := if pageSize.Some? then pageSize.value else DEFAULT_PAGE_SIZE;
    ((p - 1) * size, size)
  }

  /** Consecutive pages are consecutive windows of the same size. */
  lemma PagesAreAdjacent(page: int, pageSize: Option<int>)
    ensures Paging(Some(page + 1), pageSize).0 == Paging(Some(page), pageSize).0 + Paging(Some(page), pageSize).1
    ensures Paging(Some(1), pageSize).0 == 0
  {
    var size := if pageSize.Some? then pageSize.value else DEFAULT_PAGE_SIZE;
    assert page * size == (page - 1) * size + size;
  }

  /** `Math.ceil(totalCount / limit)` as the JSON body carries it: the
      number of pages, and none (JSON `null`, from `Infinity` or `NaN`) for a
      limit of 0. */
  function TotalPages(totalCount: nat, limit: int): (r: Option<int>)
    ensures limit == 0 <==> r.None?
    ensures limit > 0 ==> 0 <= r.value && totalCount <= r.value * limit
                          && (r.value == 0 || (r.value - 1) * limit < totalCount)
    ensures limit > 0 ==> (r.value == 0 <==> totalCount == 0)
  {
    if limit == 0 then None
    else if limit > 0 then Some((totalCount + limit - 1) / limit)
    else Some(-(totalCount / -limit))
  }

  /** Every page up to the last holds at least one row, and the last page
      reaches the final row. */
  lemma PagesCoverRows(totalCount: nat, limit: int, page: int)
    requires limit > 0 && 1 <= page <= TotalPages(totalCount, limit).value
    ensures (page - 1) * limit < totalCount
  {
    var n := TotalPages(totalCount, limit).value;
    assert (page - 1) * limit <= (n - 1) * limit;
  }

  /** The page information of `GET /all`. */
  datatype PageInfo = PageInfo(totalCount: nat, totalPages: Option<int>, currentPage: int, pageSize: int)

  /** The answer of `GET /all` once `totalCount` rows match: the database
      refuses a negative `LIMIT` or `OFFSET`, which ends in a 500. */
  function AllPageInfo(page: Option<int>, pageSize: Option<int>, totalCount: nat): (r: Outcome<PageInfo>)
    ensures r.Fail? <==> Paging(page, pageSize).0 < 0 || Paging(page, pageSize).1 < 0
    ensures r.Fail? ==> r == Fail(500, LIST_FAILED)
    ensures r.Ok? ==> r.value.totalPages == TotalPages(totalCount, Paging(page, pageSize).1)
                      && r.value.pageSize == Paging(page, pageSize).1
                      && r.value.totalCount == totalCount
                      && r.value.currentPage == (if page.Some? then page.value else DEFAULT_PAGE)
  {
    var (offset, limit) := Paging(page, pageSize);
    if offset < 0 || limit < 0 then Fail(500, LIST_FAILED)
    else Ok(PageInfo(totalCount, TotalPages(totalCount, limit), if page.Some? then page.value else DEFAULT_PAGE, limit))
  }

  /** `GET /check-phone` refuses an empty phone before asking the model
      (`CustomerTable.CheckPhoneExists`). */
  function CheckPhoneGuard(telephone: string): (d: Decision)
    ensures d == Next <==> telephone != ""
    ensures d.Reject? ==> d == Reject(400, PHONE_REQUIRED)
  {
    if telephone == "" then Reject(400, PHONE_REQUIRED) else Next
  }

  /** The body of `POST /` and `PUT /:id`. A note is a number or absent
      (`null` or `undefined`); empty text and `None` are falsy. */
  datatype CustomerBody = CustomerBody(
    activityId: Option<int>,
    date: Option<int>,
    telephone: string,
    nomClient: string,
    pointVente: string,
    montantCommande: Option<int>,
    typeClient: string,
    commentConnu: string,
    commentaireClient: string,
    noteQualite: Option<real>,
    notePrix: Option<real>,
    noteService: Option<real>)

  /** The six fields both routes require; an amount of 0 is falsy, hence
      missing. */
  predicate HasRequired(b: CustomerBody)
  {
    b.date.Some? && b.telephone != "" && b.nomClient != "" && b.pointVente != ""
    && b.montantCommande.Some? && b.montantCommande.value != 0 && b.typeClient != ""
  }

  predicate NoteInRange(n: Option<real>)
  {
    n.None? || 0.0 <= n.value <= 10.0
  }

  predicate NotesInRange(b: CustomerBody)
  {
    NoteInRange(b.noteQualite) && NoteInRange(b.notePrix) && NoteInRange(b.noteService)
  }

  /** The message `validateNote` throws for the first note out of range, in
      the order quality, price, service. */
  function NoteError(b: CustomerBody): (r: Option<string>)
    ensures r.None? <==> NotesInRange(b)
    ensures !NoteInRange(b.noteQualite) ==> r == Some("La note qualité doit être entre 0 et 10")
    ensures NoteInRange(b.noteQualite) && !NoteInRange(b.notePrix) ==> r == Some("La note prix doit être entre 0 et 10")
    ensures NoteInRange(b.noteQualite) && NoteInRange(b.notePrix) && !NoteInRange(b.noteService) ==>
              r == Some("La note service doit être entre 0 et 10")
  {
    if !NoteInRange(b.noteQualite) then Some("La note qualité doit être entre 0 et 10")
    else if !NoteInRange(b.notePrix) then Some("La note prix doit être entre 0 et 10")
    else if !NoteInRange(b.noteService) then Some("La note service doit être entre 0 et 10")
    else None
  }

  /** `x || null` on a note: 0 is falsy and is stored as null. */
  function StoredNote(n: Option<real>): (r: Option<real>)
    ensures r.Some? <==> n.Some? && n.value != 0.0
    ensures r.Some? ==> r == n
  {
    if n.Some? && n.value != 0.0 then n else None
  }

  /** `x || null` on text. */
  function StoredText(s: string): (r: Option<string>)
    ensures r.None? <==> s == ""
    ensures r.Some? ==> r.value == s
  {
    if s != "" then Some(s) else None
  }

  /** The eleven columns written from a body that has every required field. */
  function FieldsOf(b: CustomerBody): CustomerFields
    requires HasRequired(b)
  {
    CustomerFields(b.date.value, b.telephone, b.nomClient, b.pointVente, b.montantCommande.value,
                   b.typeClient, StoredText(b.commentConnu), StoredText(b.commentaireClient),
                   StoredNote(b.noteQualite), StoredNote(b.notePrix), StoredNote(b.noteService))
  }

  /** What `POST /` hands to `Customer.create`. */
  datatype NewCustomer = NewCustomer(activityId: Option<int>, fields: CustomerFields, createdBy: nat)

  /** `POST /`: required fields, then the type, then the notes, whose
      out-of-range error is thrown and reported as a 500. */
  function CreateCustomer(b: CustomerBody, user: User): (r: Outcome<NewCustomer>)
    ensures r.Ok? <==> HasRequired(b) && (b.typeClient == NOUVEAU || b.typeClient == RECURRENT) && NotesInRange(b)
    ensures !HasRequired(b) ==> r == Fail(400, REQUIRED)
    ensures HasRequired(b) && b.typeClient != NOUVEAU && b.typeClient != RECURRENT ==> r == Fail(400, BAD_TYPE)
    ensures r.Fail? && r.status != 400 ==> r.status == 500 && StartsWith(r.error, CREATE_FAILED)
    ensures HasRequired(b) && (b.typeClient == NOUVEAU || b.typeClient == RECURRENT) && !NotesInRange(b) ==>
              r == Fail(500, CREATE_FAILED + NoteError(b).value)
    ensures r.Ok? ==> r.value.createdBy == user.id
    ensures r.Ok? ==> r.value.fields == FieldsOf(b)
    ensures r.Ok? ==> var n := r.value.fields;
              && n.date == b.date.value && n.montantCommande == b.montantCommande.value
              && n.commentConnu == StoredText(b.commentConnu)
              && n.noteQualite == StoredNote(b.noteQualite) && n.notePrix == StoredNote(b.notePrix)
              && n.noteService == StoredNote(b.noteService)
    ensures r.Ok? ==> r.value.activityId == (if b.activityId.Some? && b.activityId.value != 0 then b.activityId else None)
  {
    if !HasRequired(b) then Fail(400, REQUIRED)
    else if b.typeClient != NOUVEAU && b.typeClient != RECURRENT then Fail(400, BAD_TYPE)
    else
      var err := NoteError(b);
      if err.Some? then Fail(500, CREATE_FAILED + err.value)
      else
        var activity := if b.activityId.Some? && b.activityId.value != 0 then b.activityId else None;
        Ok(NewCustomer(activity, FieldsOf(b), user.id))
  }

  /** A row created through `POST /` has one of the two types and its notes
      within 0 to 10. */
  lemma CreatedRowIsValid(b: CustomerBody, user: User)
    requires CreateCustomer(b, user).Ok?
    ensures var n := CreateCustomer(b, user).value.fields;
            (n.typeClient == NOUVEAU || n.typeClient == RECURRENT)
            && NoteInRange(n.noteQualite) && NoteInRange(n.notePrix) && NoteInRange(n.noteService)
  {
  }

  /** `PUT /:id`: 404 for a missing row, then 403 unless ADMIN or MANAGER,
      then the required fields, then the notes. There is no ownership, age
      or type check. */
  function UpdateCustomer(existing: Option<Customer>, user: User, b: CustomerBody): (r: Outcome<CustomerFields>)
    ensures existing.None? <==> r == Fail(404, NOT_FOUND)
    ensures existing.Some? && user.role != ADMIN && user.role != MANAGER ==> r == Fail(403, NO_EDIT)
    ensures r.Ok? <==> existing.Some? && (user.role == ADMIN || user.role == MANAGER) && HasRequired(b) && NotesInRange(b)
    ensures r.Fail? && r.status == 400 ==> r == Fail(400, REQUIRED)
    ensures existing.Some? && (user.role == ADMIN || user.role == MANAGER) && !HasRequired(b) ==> r == Fail(400, REQUIRED)
    ensures r.Fail? && r.status == 500 ==> StartsWith(r.error, UPDATE_FAILED)
    ensures existing.Some? && (user.role == ADMIN || user.role == MANAGER) && HasRequired(b) && !NotesInRange(b) ==>
              r == Fail(500, UPDATE_FAILED + NoteError(b).value)
    ensures r.Ok? ==> r.value == FieldsOf(b)
  {
    if existing.None? then Fail(404, NOT_FOUND)
    else if user.role != ADMIN && user.role != MANAGER then Fail(403, NO_EDIT)
    else if !HasRequired(b) then Fail(400, REQUIRED)
    else
      var err := NoteError(b);
      if err.Some? then Fail(500, UPDATE_FAILED + err.value)
      else Ok(FieldsOf(b))
  }

  /** Who created the row and when has no bearing on an update. */
  lemma UpdateIgnoresOwnerAndAge(c1: Customer, c2: Customer, user: User, b: CustomerBody)
    ensures UpdateCustomer(Some(c1), user, b) == UpdateCustomer(Some(c2), user, b)
  {
  }

  /** `DELETE /:id`: 404 for a missing row; ADMIN always; MANAGER while the
      row is at most 48 hours old (exactly 48 passes); anyone else 403. */
  function DeleteCustomer(existing: Option<Customer>, user: User, now: int): (d: Decision)
    ensures existing.None? <==> d == Reject(404, NOT_FOUND)
    ensures d == Next <==>
              existing.Some? && (user.role == ADMIN || (user.role == MANAGER && now - existing.value.createdAt <= 48 * HOUR_MS))
    ensures d.Reject? && existing.Some? ==> d.status == 403
  {
    if existing.None? then Reject(404, NOT_FOUND)
    else if user.role == ADMIN then Next
    else if user.role == MANAGER then
      if !WithinHours(existing.value.createdAt, now, 48) then Reject(403, TOO_OLD) else Next
    else Reject(403, NO_DELETE)
  }

  /** `GET /:id`. */
  function GetCustomer(existing: Option<Customer>): (r: Outcome<Customer>)
    ensures r.Ok? <==> existing.Some?
    ensures r.Ok? ==> r.value == existing.value
    ensures r.Fail? ==> r == Fail(404, NOT_FOUND)
  {
    if existing.None? then Fail(404, NOT_FOUND) else Ok(existing.value)
  }
}
