/** The `/api/activities` routes: the sales-score validator, the filter
    mapping, and the validation and permission decisions taken before the
    activity model is called. */
module ActivityRoutes {
  import opened Common
  import opened RoleCheck
  import opened ActivityModel

  const NOT_FOUND: string := "Activité non trouvée"
  const REQUIRED: string := "Les champs date, point_vente et responsable sont requis"
  const BAD_NOTE: string := "La note doit être entre 1 et 10 (virgule ou point accepté, ex: 8,5 ou 8.5)"
  const NOT_OWNER: string := "Vous ne pouvez modifier que vos propres activités"
  const TOO_LATE: string := "Vous ne pouvez plus modifier cette activité (délai de 24h dépassé)"

  predicate IsDigit(c: char)
  {
    '0' <= c <= '9'
  }

  /** `([,.][0-9]+)?`: nothing, or a comma or point followed by digits. */
  predicate Fraction(t: string)
  {
    t == "" || (|t| >= 2 && (t[0] == ',' || t[0] == '.') && forall k :: 1 <= k < |t| ==> IsDigit(t[k]))
  }

  /** `([1-9]|10)`. */
  predicate WholePart(w: string)
  {
    (|w| == 1 && '1' <= w[0] <= '9') || w == "10"
  }

  /** The language of `^([1-9]|10)([,.][0-9]+)?$`: some split of the text
      into a whole part and a fraction. */
  predicate InScoreLanguage(s: string)
  {
    exists i :: 1 <= i <= |s| && WholePart(s[..i]) && Fraction(s[i..])
  }

  /** The regular expression test, deciding the split without search: the
      whole part is one digit, or `10`. */
  function MatchesScore(s: string): (r: bool)
    ensures r <==> InScoreLanguage(s)
  {
    var one := |s| >= 1 && '1' <= s[0] <= '9' && Fraction(s[1..]);
    var ten := |s| >= 2 && s[..2] == "10" && Fraction(s[2..]);
    if one then assert WholePart(s[..1]); true
    else if ten then assert WholePart(s[..2]); true
    else
      assert forall i :: 1 <= i <= |s| && WholePart(s[..i]) ==> i == 1 || (i == 2 && s[..2] == "10");
      false
  }

  /** `validateNote`: an empty score is valid, any other must match. */
  function ValidateNote(note: string): (r: bool)
    ensures r <==> note == "" || InScoreLanguage(note)
  {
    note == "" || MatchesScore(note)
  }

  /** Scores below 1 are refused, comma and point decimals accepted, and
      10 may carry a fraction. */
  lemma ScoreExamples()
    ensures !ValidateNote("0.5") && !ValidateNote("0") && !ValidateNote("11") && !ValidateNote("8.")
    ensures ValidateNote("8,5") && ValidateNote("8.5") && ValidateNote("10") && ValidateNote("10,9")
  {
    assert "8,5"[..1] == "8" && "8,5"[1..] == ",5";
    assert "8.5"[..1] == "8" && "8.5"[1..] == ".5";
    assert "10"[..2] == "10";
    assert "10,9"[..2] == "10" && "10,9"[2..] == ",9";
    assert "11"[1..] == "1" && "11"[..2][1] != "10"[1];
    assert "8."[1..] == ".";
  }

  /** `GET /` keeps only the non-empty parameters. */
  method ListFiltersOf(dateDebut: Option<int>, dateFin: Option<int>, pointVente: string)
    returns (f: ActivityFilters)
    ensures f == ActivityFilters(dateDebut, dateFin, pointVente)
  {
    f := ActivityFilters(None, None, "");
    if dateDebut.Some? { f := f.(dateDebut := dateDebut); }
    if dateFin.Some? { f := f.(dateFin := dateFin); }
    if pointVente != "" { f := f.(pointVente := pointVente); }
  }

  /** The body of `POST /` and `PUT /:id`; empty text and `None` are falsy.
      The score is the text sent. */
  datatype ActivityBody = ActivityBody(
    date: Option<int>,
    pointVente: string,
    responsable: string,
    noteVentes: string,
    plaintesClient: string,
    produitsManquants: string,
    commentaireLivreurs: string,
    commentaire: string)

  predicate HasRequired(b: ActivityBody)
  {
    b.date.Some? && b.pointVente != "" && b.responsable != ""
  }

  /** The eight columns written: the score is null when empty, and the
      free-text fields default to the empty string. */
  function FieldsOf(b: ActivityBody): (r: ActivityFields)
    requires HasRequired(b)
    ensures r.noteVentes.None? <==> b.noteVentes == ""
    ensures r.noteVentes.Some? ==> r.noteVentes.value == b.noteVentes
  {
    ActivityFields(b.date.value, b.pointVente, b.responsable,
                   if b.noteVentes != "" then Some(b.noteVentes) else None,
                   b.plaintesClient, b.produitsManquants, b.commentaireLivreurs, b.commentaire)
  }

  /** What `POST /` hands to `Activity.create`. */
  datatype NewActivity = NewActivity(fields: ActivityFields, createdBy: nat)

  /** `POST /`: the three required fields, then the score. */
  function CreateActivity(b: ActivityBody, user: User): (r: Outcome<NewActivity>)
    ensures r.Ok? <==> HasRequired(b) && ValidateNote(b.noteVentes)
    ensures !HasRequired(b) ==> r == Fail(400, REQUIRED)
    ensures HasRequired(b) && !ValidateNote(b.noteVentes) ==> r == Fail(400, BAD_NOTE)
    ensures r.Ok? ==> r.value.createdBy == user.id && r.value.fields == FieldsOf(b)
  {
    if !HasRequired(b) then Fail(400, REQUIRED)
    else if b.noteVentes != "" && !ValidateNote(b.noteVentes) then Fail(400, BAD_NOTE)
    else Ok(NewActivity(FieldsOf(b), user.id))
  }

  /** The permission part of `PUT /:id`: a MANAGER may edit only their own
      activities, and only while at most 24 hours old (exactly 24 passes).
      Every other role passes. */
  function EditPermission(a: Activity, user: User, now: int): (d: Decision)
    ensures d == Next <==> user.role != MANAGER || (a.createdBy == user.id && now - a.createdAt <= 24 * HOUR_MS)
    ensures user.role == MANAGER && a.createdBy != user.id ==> d == Reject(403, NOT_OWNER)
    ensures d.Reject? ==> d.status == 403
  {
    if user.role == MANAGER then
      if a.createdBy != user.id then Reject(403, NOT_OWNER)
      else if !WithinHours(a.createdAt, now, 24) then Reject(403, TOO_LATE)
      else Next
    else Next
  }

  /** `PUT /:id`: 404, then the permission, then the required fields, then
      the score. */
  function UpdateActivity(existing: Option<Activity>, user: User, now: int, b: ActivityBody): (r: Outcome<ActivityFields>)
    ensures existing.None? <==> r == Fail(404, NOT_FOUND)
    ensures existing.Some? && EditPermission(existing.value, user, now).Reject? ==>
              r == Fail(403, EditPermission(existing.value, user, now).error)
    ensures r.Ok? <==> existing.Some? && EditPermission(existing.value, user, now) == Next
                       && HasRequired(b) && ValidateNote(b.noteVentes)
    ensures r.Fail? && r.status == 400 ==> r.error == REQUIRED || r.error == BAD_NOTE
    ensures existing.Some? && EditPermission(existing.value, user, now) == Next && !HasRequired(b) ==>
              r == Fail(400, REQUIRED)
    ensures existing.Some? && EditPermission(existing.value, user, now) == Next && HasRequired(b) && !ValidateNote(b.noteVentes) ==>
              r == Fail(400, BAD_NOTE)
    ensures r.Ok? ==> r.value == FieldsOf(b)
  {
    if existing.None? then Fail(404, NOT_FOUND)
    else
      var permission := EditPermission(existing.value, user, now);
      if permission.Reject? then Fail(403, permission.error)
      else if !HasRequired(b) then Fail(400, REQUIRED)
      else if b.noteVentes != "" && !ValidateNote(b.noteVentes) then Fail(400, BAD_NOTE)
      else Ok(FieldsOf(b))
  }

  /** Only MANAGER is restricted: an ADMIN, and any role other than MANAGER,
      may edit any activity at any age. */
  lemma OnlyManagerRestricted(a: Activity, user: User, now: int, b: ActivityBody)
    requires user.role != MANAGER && HasRequired(b) && ValidateNote(b.noteVentes)
    ensures UpdateActivity(Some(a), user, now, b) == Ok(FieldsOf(b))
  {
  }

  /** `DELETE /:id` behind `checkRole('ADMIN')`: the role check comes
      first, so a non-ADMIN is refused even for a missing row. */
  function DeleteActivity(existing: Option<Activity>, user: Option<User>): (d: Decision)
    ensures d == Next <==> user.Some? && user.value.role == ADMIN && existing.Some?
    ensures CheckRole([ADMIN], user).Reject? ==> d == CheckRole([ADMIN], user)
    ensures CheckRole([ADMIN], user) == Next && existing.None? ==> d == Reject(404, NOT_FOUND)
  {
    var role := CheckRole([ADMIN], user);
    if role.Reject? then role
    else if existing.None? then Reject(404, NOT_FOUND)
    else Next
  }

  /** `GET /:id`. */
  function GetActivity(existing: Option<Activity>): (r: Outcome<Activity>)
    ensures r.Ok? <==> existing.Some?
    ensures r.Ok? ==> r.value == existing.value
    ensures r.Fail? ==> r == Fail(404, NOT_FOUND)
  {
    if existing.None? then Fail(404, NOT_FOUND) else Ok(existing.value)
  }
}
