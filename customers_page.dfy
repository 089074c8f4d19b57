/** The customers modal of the dashboard (`CustomersModule`): the state it
    keeps between clicks, its reaction to the phone lookup, the payload it
    submits, the note badge and the row permissions. The DOM is reduced to
    the form values the module reads and writes. */
module CustomersPage {
  import opened Common
  import opened CustomerModel
  import opened CustomerRoutes

  /** `canEdit` of a customer row. */
  predicate CanEditCustomer(role: string)
  {
    role == ADMIN || role == MANAGER
  }

  /** `canDelete` of a customer row: ADMIN always, MANAGER while the row is
      at most 48 hours old, nobody else. */
  predicate CanDeleteCustomer(role: string, createdAt: int, now: int)
  {
    if role == MANAGER then WithinHours(createdAt, now, 48) else role == ADMIN
  }

  /** The edit button is shown exactly to the users the update route lets
      past its permission check. */
  lemma EditButtonMatchesRoute(c: Customer, user: User, b: CustomerBody)
    ensures CanEditCustomer(user.role) <==> UpdateCustomer(Some(c), user, b) != Fail(403, NO_EDIT)
  {
  }

  /** The delete button is shown exactly when the delete route would accept
      the row. */
  lemma DeleteButtonMatchesRoute(c: Customer, user: User, now: int)
    ensures CanDeleteCustomer(user.role, c.createdAt, now) <==> DeleteCustomer(Some(c), user, now) == Next
  {
  }

  /** A note is falsy when absent or zero. */
  predicate Falsy(note: Option<real>)
  {
    note.None? || note.value == 0.0
  }

  /** `getNoteClass`: no badge for a falsy note, then the bands 8, 6, 4. */
  function NoteClass(note: Option<real>): (r: string)
    ensures r == "" <==> Falsy(note)
  {
    if Falsy(note) then ""
    else if note.value >= 8.0 then "excellent"
    else if note.value >= 6.0 then "good"
    else if note.value >= 4.0 then "average"
    else "poor"
  }

  /** The rank of a badge, from "poor" up to "excellent". */
  function BadgeRank(badge: string): int
  {
    if badge == "excellent" then 3
    else if badge == "good" then 2
    else if badge == "average" then 1
    else 0
  }

  /** A better note never gets a lower badge, and each band starts exactly
      at its threshold. */
  lemma NoteClassMonotone(a: real, b: real)
    requires a != 0.0 && b != 0.0 && a <= b
    ensures BadgeRank(NoteClass(Some(a))) <= BadgeRank(NoteClass(Some(b)))
    ensures NoteClass(Some(a)) == "excellent" <==> a >= 8.0
    ensures NoteClass(Some(a)) == "poor" <==> a < 4.0
  {
  }

  /** What the status line under the phone field shows. */
  datatype PhoneStatus = Hidden | Returning(count: nat) | FirstOrder

  /** The text of the status line of a returning customer. */
  function CountLabel(count: nat): (r: string)
  {
    "🟢 Client récurrent (" + Decimal(count) + " commande" + (if count > 1 then "s" else "") + ")"
  }

  /** The word "commande" takes an `s` exactly when there is more than one
      order. */
  lemma CountLabelPlural(count: nat)
    ensures var r := CountLabel(count);
            |r| >= 2 && (r[|r| - 2] == 's' <==> count > 1)
  {
    var r := CountLabel(count);
    var tail := " commande" + (if count > 1 then "s" else "") + ")";
    assert r == "🟢 Client récurrent (" + Decimal(count) + tail;
    assert r[|r| - 2] == tail[|tail| - 2];
  }

  /** What the form sends to `POST /api/customers` or `PUT /api/customers/:id`. */
  datatype Payload = Payload(
    activityId: Option<int>,
    date: string,
    telephone: string,
    nomClient: string,
    pointVente: string,
    montantCommande: Option<int>,
    typeClient: string,
    commentConnu: Option<string>,
    commentaireClient: Option<string>,
    noteQualite: Option<real>,
    notePrix: Option<real>,
    noteService: Option<real>)

  /** The values of the form, numbers already parsed (`None` when not a
      number). */
  datatype FormValues = FormValues(
    date: string,
    telephone: string,
    nomClient: string,
    pointVente: string,
    montantCommande: Option<int>,
    typeClient: string,
    commentConnu: string,
    commentaireClient: string,
    noteQualite: Option<real>,
    notePrix: Option<real>,
    noteService: Option<real>)

  datatype HttpMethod = Post | Put

  datatype Request = Request(verb: HttpMethod, url: string, body: Payload)

  /** The text a route reads for a field the page sent: `null` reads as the
      empty, falsy text. */
  function TextOf(v: Option<string>): string
  {
    if v.Some? then v.value else ""
  }

  class CustomersModule {
    var currentActivityId: Option<int>
    var currentDate: Option<string>
    var currentPointVente: Option<string>
    var customers: seq<Customer>
    var currentCustomer: Option<Customer>
    var editMode: bool
    /** The form values the module writes: the type client field, the
        "comment connu" choice and the phone status line. */
    var customerType: string
    var commentConnu: string
    var phoneStatus: PhoneStatus

    /** The form is in edit mode exactly when it holds the customer being
        edited. */
    ghost predicate Valid()
      reads this
    {
      editMode <==> currentCustomer.Some?
    }

    constructor ()
      ensures Valid()
      ensures currentActivityId.None? && currentDate.None? && currentPointVente.None?
      ensures customers == [] && currentCustomer.None? && !editMode
      ensures customerType == NOUVEAU && commentConnu == "" && phoneStatus == Hidden
    {
      currentActivityId := None;
      currentDate := None;
      currentPointVente := None;
      customers := [];
      currentCustomer := None;
      editMode := false;
      customerType := NOUVEAU;
      commentConnu := "";
      phoneStatus := Hidden;
    }

    /** `openCustomersModal`: remembers the activity, day and outlet the
        customers belong to. Loading them is a request, left out. */
    method OpenCustomersModal(activityId: Option<int>, date: string, pointVente: string)
      modifies this
      ensures currentActivityId == activityId && currentDate == Some(date) && currentPointVente == Some(pointVente)
      ensures customers == old(customers) && currentCustomer == old(currentCustomer) && editMode == old(editMode)
      ensures customerType == old(customerType) && commentConnu == old(commentConnu) && phoneStatus == old(phoneStatus)
    {
      currentActivityId := activityId;
      currentDate := Some(date);
      currentPointVente := Some(pointVente);
    }

    /** `openFormModal`: edit mode with the customer's values, or a reset
        form whose type is "Nouveau". */
    method OpenFormModal(customer: Option<Customer>)
      modifies this
      ensures Valid()
      ensures editMode == customer.Some? && currentCustomer == customer
      ensures customer.Some? ==> customerType == customer.value.fields.typeClient
                                 && commentConnu == TextOf(customer.value.fields.commentConnu)
      ensures customer.None? ==> customerType == NOUVEAU && commentConnu == ""
      ensures phoneStatus == old(phoneStatus)
      ensures currentActivityId == old(currentActivityId) && currentDate == old(currentDate)
      ensures currentPointVente == old(currentPointVente) && customers == old(customers)
    {
      editMode := customer.Some?;
      currentCustomer := customer;
      if customer.Some? {
        customerType := customer.value.fields.typeClient;
        commentConnu := TextOf(customer.value.fields.commentConnu);
      } else {
        customerType := NOUVEAU;
        commentConnu := "";
      }
    }

    /** `closeCustomersModal`. */
    method CloseCustomersModal()
      modifies this
      ensures currentActivityId.None? && currentDate.None? && currentPointVente.None? && customers == []
      ensures currentCustomer == old(currentCustomer) && editMode == old(editMode)
      ensures customerType == old(customerType) && commentConnu == old(commentConnu) && phoneStatus == old(phoneStatus)
    {
      currentActivityId := None;
      currentDate := None;
      currentPointVente := None;
      customers := [];
    }

    /** `closeFormModal`: leaves edit mode; the form reset puts the type
        back to "Nouveau" and clears the choice. */
    method CloseFormModal()
      modifies this
      ensures Valid()
      ensures !editMode && currentCustomer.None?
      ensures customerType == NOUVEAU && commentConnu == ""
      ensures phoneStatus == old(phoneStatus)
      ensures currentActivityId == old(currentActivityId) && currentDate == old(currentDate)
      ensures currentPointVente == old(currentPointVente) && customers == old(customers)
    {
      editMode := false;
      currentCustomer := None;
      customerType := NOUVEAU;
      commentConnu := "";
    }

    /** `checkPhoneExists`: nothing for a phone shorter than 8 characters or
        a failed request; otherwise the customer type follows the lookup,
        and a known "comment connu" is copied into the form. */
    method CheckPhoneExists(telephone: string, response: Option<PhoneCheck>)
      modifies this
      ensures |telephone| < 8 || response.None? ==>
                customerType == old(customerType) && commentConnu == old(commentConnu) && phoneStatus == old(phoneStatus)
      ensures |telephone| >= 8 && response.Some? ==>
                var r := response.value;
                && customerType == (if r.found then RECURRENT else NOUVEAU)
                && phoneStatus == (if r.found then Returning(r.count) else FirstOrder)
                && commentConnu == (if r.found && TextOf(r.commentConnu) != "" then r.commentConnu.value else old(commentConnu))
      ensures currentActivityId == old(currentActivityId) && currentDate == old(currentDate)
      ensures currentPointVente == old(currentPointVente) && customers == old(customers)
      ensures currentCustomer == old(currentCustomer) && editMode == old(editMode)
    {
      if telephone == "" || |telephone| < 8 {
        return;
      }
      if response.None? {
        return;
      }
      var result := response.value;
      if result.found {
        phoneStatus := Returning(result.count);
        customerType := RECURRENT;
        if result.commentConnu.Some? && result.commentConnu.value != "" {
          commentConnu := result.commentConnu.value;
        }
      } else {
        phoneStatus := FirstOrder;
        customerType := NOUVEAU;
      }
    }

    /** `handleFormSubmit`: the payload, with empty comments sent as `null`,
        and where it goes: `PUT` on the edited customer or `POST`. */
    function Submission(form: FormValues): (r: Request)
      reads this
      requires Valid()
      ensures r.verb == Put <==> editMode
      ensures editMode ==> r.url == "/api/customers/" + Decimal(currentCustomer.value.id)
      ensures !editMode ==> r.url == "/api/customers"
      ensures r.body.activityId == currentActivityId
      ensures r.body.commentConnu.None? <==> form.commentConnu == ""
      ensures r.body.commentaireClient.None? <==> form.commentaireClient == ""
    {
      var body := Payload(currentActivityId, form.date, form.telephone, form.nomClient, form.pointVente,
                          form.montantCommande, form.typeClient,
                          StoredText(form.commentConnu), StoredText(form.commentaireClient),
                          form.noteQualite, form.notePrix, form.noteService);
      if editMode then Request(Put, "/api/customers/" + Decimal(currentCustomer.value.id), body)
      else Request(Post, "/api/customers", body)
    }
  }

  /** Sending an empty comment as `null` loses nothing: the route stores the
      same value it would have stored for the text typed. */
  lemma CommentsSurviveTheRoute(form: FormValues)
    ensures StoredText(TextOf(StoredText(form.commentConnu))) == StoredText(form.commentConnu)
    ensures TextOf(StoredText(form.commentaireClient)) == form.commentaireClient
  {
  }

  /** The type a lookup puts in the form (`CustomersModule.CheckPhoneExists`)
      never makes the create route refuse the type: a body that carries it
      and the required fields passes the type check, and is accepted when
      its notes are in range. */
  lemma LookupTypeAccepted(r: PhoneCheck, b: CustomerBody, user: User)
    requires HasRequired(b) && b.typeClient == (if r.found then RECURRENT else NOUVEAU)
    ensures CreateCustomer(b, user) != Fail(400, BAD_TYPE)
    ensures NotesInRange(b) ==> CreateCustomer(b, user).Ok? && CreateCustomer(b, user).value.fields.typeClient == b.typeClient
  {
  }
}
