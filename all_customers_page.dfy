/** The "all customers" page (`AllCustomers`): the page the listing shows,
    the pagination bar, the query of the listing request and the note
    badge. Its row permissions repeat those of the customers modal
    (`CustomersPage.CanEditCustomer`, `CustomersPage.CanDeleteCustomer`). */
module AllCustomersPage {
  import opened Common
  import opened CustomerModel
  import opened CustomerRoutes
  import CustomersPage

  const PAGE_SIZE: int := 50

  /** One element of the pagination bar. */
  datatype PageItem =
    | PrevButton(target: int, disabled: bool)
    | PageButton(page: int, active: bool)
    | Ellipsis
    | NextButton(target: int, disabled: bool)

  /** Page `i` gets a button: the first and last pages, and those within two
      of the current one. */
  predicate HasButton(i: int, current: int, total: int)
  {
    i == 1 || i == total || (current - 2 <= i <= current + 2)
  }

  /** Page `i` is hidden and stands just outside the window around the
      current page, where the ellipsis goes. */
  predicate GapAt(i: int, n: int, current: int, total: int)
  {
    1 <= i <= n && !HasButton(i, current, total) && (i == current - 3 || i == current + 3)
  }

  /** What one turn of the loop adds for page `i`. */
  function SlotOf(i: int, current: int, total: int): seq<PageItem>
  {
    if HasButton(i, current, total) then [PageButton(i, i == current)]
    else if i == current - 3 || i == current + 3 then [Ellipsis]
    else []
  }

  /** What the loop adds for pages 1 to `n`. */
  function Slots(n: int, current: int, total: int): seq<PageItem>
    decreases n
  {
    if n < 1 then [] else Slots(n - 1, current, total) + SlotOf(n, current, total)
  }

  /** Two page buttons come in increasing page order. */
  predicate InOrder(x: PageItem, y: PageItem)
  {
    x.PageButton? && y.PageButton? ==> x.page < y.page
  }

  /** The buttons are exactly those of the pages the window rule shows, in
      increasing page order, and only the current page's is active. */
  lemma {:induction false} SlotsButtons(n: int, current: int, total: int)
    ensures forall k :: 0 <= k < |Slots(n, current, total)| ==>
              var x := Slots(n, current, total)[k];
              x.Ellipsis? || (x.PageButton? && 1 <= x.page <= n && HasButton(x.page, current, total)
                              && (x.active <==> x.page == current))
    ensures forall i :: 1 <= i <= n && HasButton(i, current, total) ==> PageButton(i, i == current) in Slots(n, current, total)
    ensures forall j, k :: 0 <= j < k < |Slots(n, current, total)| ==> InOrder(Slots(n, current, total)[j], Slots(n, current, total)[k])
    decreases n
  {
    if n >= 1 {
      SlotsButtons(n - 1, current, total);
      var s, t := Slots(n - 1, current, total), SlotOf(n, current, total);
      assert Slots(n, current, total) == s + t;
      assert forall k :: 0 <= k < |s| ==> (s + t)[k] == s[k];
      assert forall k :: |s| <= k < |s + t| ==> (s + t)[k] == t[k - |s|];
      forall i | 1 <= i <= n && HasButton(i, current, total)
        ensures PageButton(i, i == current) in s + t
      {
        if i == n {
          assert (s + t)[|s|] == PageButton(i, i == current);
        } else {
          var k :| 0 <= k < |s| && s[k] == PageButton(i, i == current);
          assert (s + t)[k] == PageButton(i, i == current);
        }
      }
    }
  }

  /** An ellipsis is shown exactly when a page three away from the current
      one is hidden. */
  lemma {:induction false} SlotsEllipsis(n: int, current: int, total: int)
    ensures Ellipsis in Slots(n, current, total) <==>
              GapAt(current - 3, n, current, total) || GapAt(current + 3, n, current, total)
    decreases n
  {
    if n >= 1 {
      SlotsEllipsis(n - 1, current, total);
      var s, t := Slots(n - 1, current, total), SlotOf(n, current, total);
      assert Slots(n, current, total) == s + t;
      assert Ellipsis in s + t <==> Ellipsis in s || Ellipsis in t;
    }
  }

  /** The query of the listing request: the non-empty filters, the search
      fields trimmed, in the order telephone, nom, outlet, type, dates. */
  datatype FilterInputs = FilterInputs(
    telephone: string, nom: string, pointVente: string, typeClient: string,
    dateDebut: string, dateFin: string)

  /** The filter values as `getFiltersParams` reads them: the two search
      texts trimmed, the others as selected. */
  function Trimmed(f: FilterInputs): (g: FilterInputs)
    ensures g.pointVente == f.pointVente && g.typeClient == f.typeClient
    ensures g.dateDebut == f.dateDebut && g.dateFin == f.dateFin
  {
    f.(telephone := Trim(f.telephone), nom := Trim(f.nom))
  }

  /** The name and value of every filter field, present or not. */
  function FilterPairs(g: FilterInputs): Params
  {
    [("telephone", g.telephone), ("nom", g.nom), ("point_vente", g.pointVente),
     ("type_client", g.typeClient), ("dateDebut", g.dateDebut), ("dateFin", g.dateFin)]
  }

  /** The pairs in the order `getFiltersParams` appends them. */
  lemma FilterPairsInOrder(g: FilterInputs)
    ensures [] + [("telephone", g.telephone)] + [("nom", g.nom)] + [("point_vente", g.pointVente)]
            + [("type_client", g.typeClient)] + [("dateDebut", g.dateDebut)] + [("dateFin", g.dateFin)]
            == FilterPairs(g)
  {
  }

  /** The route reads back every filter the page meant: the trimmed search
      texts, the outlet and the type, an empty one as absent. */
  lemma FiltersDelivered(f: FilterInputs)
    ensures var p := PresentParams(FilterPairs(Trimmed(f)));
            && ParamValue(p, "telephone") == Trim(f.telephone)
            && ParamValue(p, "nom") == Trim(f.nom)
            && ParamValue(p, "point_vente") == f.pointVente
            && ParamValue(p, "type_client") == f.typeClient
  {
    var g := Trimmed(f);
    var pairs := FilterPairs(g);
    FilterNamesDistinct(g);
    PresentParamsDelivered(pairs, 0);
    PresentParamsDelivered(pairs, 1);
    PresentParamsDelivered(pairs, 2);
    PresentParamsDelivered(pairs, 3);
  }

  /** The six filters go under six different names. */
  lemma FilterNamesDistinct(g: FilterInputs)
    ensures DistinctNames(FilterPairs(g))
  {
    var pairs := FilterPairs(g);
    assert pairs[0].0[0] == 't' && pairs[1].0[0] == 'n' && pairs[2].0[0] == 'p';
    assert pairs[3].0[0] == 't' && pairs[4].0[0] == 'd' && pairs[5].0[0] == 'd';
    assert pairs[0].0[1] == 'e' && pairs[3].0[1] == 'y';
    assert pairs[4].0[4] == 'D' && pairs[5].0[4] == 'F';
  }

  /** The listing as the route computes it: page and page size sent by the
      page reach the paging arithmetic unchanged. */
  lemma PageRequestPaging(page: int)
    ensures Paging(Some(page), Some(PAGE_SIZE)) == ((page - 1) * PAGE_SIZE, PAGE_SIZE)
  {
  }

  /** `getNoteClass`: no badge for a falsy (absent or zero) note, then the
      bands 8, 6, 4. */
  function NoteClass(note: Option<real>): (r: string)
    ensures r == "" <==> note.None? || note.value == 0.0
  {
    if note.None? || note.value == 0.0 then ""
    else if note.value >= 8.0 then "note-excellente"
    else if note.value >= 6.0 then "note-bonne"
    else if note.value >= 4.0 then "note-moyenne"
    else "note-faible"
  }

  /** The badge changes exactly at the thresholds. */
  lemma NoteClassBands(n: real)
    requires n != 0.0
    ensures NoteClass(Some(n)) == "note-excellente" <==> n >= 8.0
    ensures NoteClass(Some(n)) == "note-bonne" <==> 6.0 <= n < 8.0
    ensures NoteClass(Some(n)) == "note-moyenne" <==> 4.0 <= n < 6.0
    ensures NoteClass(Some(n)) == "note-faible" <==> n < 4.0
  {
  }

  /** The table's row buttons follow the modal's rules, so they too are
      shown exactly to the users the update and delete routes accept. */
  lemma RowButtonsMatchRoutes(c: Customer, user: User, b: CustomerBody, now: int)
    ensures CustomersPage.CanEditCustomer(user.role) <==> UpdateCustomer(Some(c), user, b) != Fail(403, NO_EDIT)
    ensures CustomersPage.CanDeleteCustomer(user.role, c.createdAt, now) <==> DeleteCustomer(Some(c), user, now) == Next
  {
    CustomersPage.EditButtonMatchesRoute(c, user, b);
    CustomersPage.DeleteButtonMatchesRoute(c, user, now);
  }

  class AllCustomers {
    var currentPage: int
    var totalPages: int

    /** The page shown is never below 1. */
    ghost predicate Valid()
      reads this
    {
      currentPage >= 1
    }

    constructor ()
      ensures Valid() && currentPage == 1 && totalPages == 1
    {
      currentPage := 1;
      totalPages := 1;
    }

    /** The part of `loadCustomers` that keeps the answer's page count. */
    method Loaded(pages: int)
      modifies this
      ensures totalPages == pages && currentPage == old(currentPage)
    {
      totalPages := pages;
    }

    /** `changePage`: a page outside 1 to `totalPages` is ignored. */
    method ChangePage(page: int)
      modifies this
      requires Valid()
      ensures Valid()
      ensures 1 <= page <= totalPages ==> currentPage == page
      ensures page < 1 || page > totalPages ==> currentPage == old(currentPage)
      ensures totalPages == old(totalPages)
    {
      if page < 1 || page > totalPages {
        return;
      }
      currentPage := page;
    }

    /** `applyFilters`: a new search starts on the first page. */
    method ApplyFilters()
      modifies this
      ensures Valid() && currentPage == 1 && totalPages == old(totalPages)
    {
      currentPage := 1;
    }

    /** The query of `loadCustomers`: the filters, then the page and its
        size. */
    method ListingQuery(f: FilterInputs) returns (params: Params)
      ensures params == PresentParams(FilterPairs(Trimmed(f))) + [("page", IntText(currentPage)), ("pageSize", IntText(PAGE_SIZE))]
    {
      var g := Trimmed(f);
      params := [];
      ghost var done: Params := [];
      params := AppendIfPresent(done, params, "telephone", g.telephone);
      done := done + [("telephone", g.telephone)];
      params := AppendIfPresent(done, params, "nom", g.nom);
      done := done + [("nom", g.nom)];
      params := AppendIfPresent(done, params, "point_vente", g.pointVente);
      done := done + [("point_vente", g.pointVente)];
      params := AppendIfPresent(done, params, "type_client", g.typeClient);
      done := done + [("type_client", g.typeClient)];
      params := AppendIfPresent(done, params, "dateDebut", g.dateDebut);
      done := done + [("dateDebut", g.dateDebut)];
      params := AppendIfPresent(done, params, "dateFin", g.dateFin);
      done := done + [("dateFin", g.dateFin)];
      FilterPairsInOrder(g);
      params := params + [("page", IntText(currentPage)), ("pageSize", IntText(PAGE_SIZE))];
    }

    /** `renderPagination`: nothing for a single page; otherwise the
        previous button (disabled on the first page), the window of page
        buttons with their ellipses, and the next button (disabled on the
        last page). */
    method RenderPagination() returns (items: seq<PageItem>)
      ensures totalPages <= 1 <==> items == []
      ensures totalPages > 1 ==>
                && |items| >= 2
                && items[0] == PrevButton(currentPage - 1, currentPage == 1)
                && items[1..|items| - 1] == Slots(totalPages, currentPage, totalPages)
                && items[|items| - 1] == NextButton(currentPage + 1, currentPage == totalPages)
    {
      if totalPages <= 1 {
        return [];
      }
      var slots: seq<PageItem> := [];
      var i := 1;
      while i <= totalPages
        invariant 1 <= i <= totalPages + 1
        invariant slots == Slots(i - 1, currentPage, totalPages)
      {
        if i == 1 || i == totalPages || (i >= currentPage - 2 && i <= currentPage + 2) {
          slots := slots + [PageButton(i, i == currentPage)];
        } else if i == currentPage - 3 || i == currentPage + 3 {
          slots := slots + [Ellipsis];
        }
        i := i + 1;
      }
      items := [PrevButton(currentPage - 1, currentPage == 1)] + slots + [NextButton(currentPage + 1, currentPage == totalPages)];
      assert items[1..|items| - 1] == slots;
    }
  }
}
