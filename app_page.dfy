/** The activities page (`App`): the default filter range, the query of the
    activity listing, the row permissions, the day handed to the customers
    modal and the truncated text cells. The clock is passed in as the
    calendar fields of today; HTML escaping is a parameter. */
module AppPage {
  import opened Common
  import opened ActivityModel
  import opened ActivityRoutes
  import opened ExternalApi

  /** `setDefaultFilterDates`: from the first of the current month to
      today, given `getFullYear()`, `getMonth()` (0 to 11) and `getDate()`. */
  function DefaultFilterDates(year: nat, month0: nat, day: nat): (r: (string, string))
    requires month0 < 12 && 1 <= day <= 31
    ensures |r.0| == |r.1| >= 2 && r.0[..|r.0| - 2] == r.1[..|r.1| - 2]
    ensures r.0[|r.0| - 2..] == "01"
  {
    var month := month0 + 1;
    var first := DateText(year, month, 1);
    var today := DateText(year, month, day);
    assert first[..|first| - 2] == Decimal(year) + "-" + Pad2(month) + "-";
    assert today[..|today| - 2] == Decimal(year) + "-" + Pad2(month) + "-";
    (first, today)
  }

  /** For a four-digit year both ends have the `YYYY-MM-DD` shape, and they
      read back as the first of the month and today, with the month counted
      from 1. */
  lemma DefaultFilterDatesReadBack(year: nat, month0: nat, day: nat)
    requires 1000 <= year <= 9999 && month0 < 12 && 1 <= day <= 31
    ensures var (from, to) := DefaultFilterDates(year, month0, day);
            && IsDateShape(from) && IsDateShape(to)
            && DateFields(from) == (year, month0 + 1, 1)
            && DateFields(to) == (year, month0 + 1, day)
  {
    DateTextRoundTrip(year, month0 + 1, 1);
    DateTextRoundTrip(year, month0 + 1, day);
  }

  /** The query names of the listing filters, in the order they are
      appended. */
  function ActivityPairs(dateDebut: string, dateFin: string, pointVente: string): Params
  {
    [("dateDebut", dateDebut), ("dateFin", dateFin), ("pointVente", pointVente)]
  }

  /** `loadActivities`: the truthy filters, in the order date from, date
      to, outlet, and a `?` only when there is a query. */
  method ActivitiesUrl(dateDebut: string, dateFin: string, pointVente: string) returns (url: string)
    ensures var query := QueryString(PresentParams(ActivityPairs(dateDebut, dateFin, pointVente)));
            url == "/api/activities" + (if query != "" then "?" + query else "")
  {
    var params: Params := [];
    ghost var done: Params := [];
    params := AppendIfPresent(done, params, "dateDebut", dateDebut);
    done := done + [("dateDebut", dateDebut)];
    params := AppendIfPresent(done, params, "dateFin", dateFin);
    done := done + [("dateFin", dateFin)];
    params := AppendIfPresent(done, params, "pointVente", pointVente);
    done := done + [("pointVente", pointVente)];
    assert done == ActivityPairs(dateDebut, dateFin, pointVente);
    var query := QueryString(params);
    url := "/api/activities" + (if query != "" then "?" + query else "");
  }

  /** The bare listing path is requested exactly when no filter is set. */
  lemma {:induction false} ActivitiesUrlBare(dateDebut: string, dateFin: string, pointVente: string)
    ensures var query := QueryString(PresentParams(ActivityPairs(dateDebut, dateFin, pointVente)));
            query == "" <==> dateDebut == "" && dateFin == "" && pointVente == ""
  {
    var pairs := ActivityPairs(dateDebut, dateFin, pointVente);
    PresentParamsEmpty(pairs);
    assert pairs[0].1 == dateDebut && pairs[1].1 == dateFin && pairs[2].1 == pointVente;
  }

  /** The route reads back each filter the page set, and an unset one as
      absent. */
  lemma ActivityFiltersDelivered(dateDebut: string, dateFin: string, pointVente: string)
    ensures var p := PresentParams(ActivityPairs(dateDebut, dateFin, pointVente));
            && ParamValue(p, "dateDebut") == dateDebut
            && ParamValue(p, "dateFin") == dateFin
            && ParamValue(p, "pointVente") == pointVente
  {
    var pairs := ActivityPairs(dateDebut, dateFin, pointVente);
    assert DistinctNames(pairs) by {
      assert pairs[0].0[4] == 'D' && pairs[1].0[4] == 'F' && pairs[2].0[4] == 't';
    }
    PresentParamsDelivered(pairs, 0);
    PresentParamsDelivered(pairs, 1);
    PresentParamsDelivered(pairs, 2);
  }

  /** `canEdit` of an activity row. */
  predicate CanEditActivity(role: string)
  {
    role == ADMIN || role == MANAGER
  }

  /** `canDelete` of an activity row. */
  predicate CanDeleteActivity(role: string)
  {
    role == ADMIN
  }

  /** The delete button is shown exactly to the users the delete route
      accepts. */
  lemma DeleteButtonMatchesRoute(a: Activity, user: User)
    ensures CanDeleteActivity(user.role) <==> DeleteActivity(Some(a), Some(user)) == Next
  {
  }

  /** The edit button and the update route disagree both ways: an ADMIN
      sees it and passes; a MANAGER sees it on every row but passes only on
      their own activities at most 24 hours old; any other role does not see
      it, yet the route lets that role through. */
  lemma EditButtonVersusRoute(a: Activity, user: User, now: int)
    ensures CanEditActivity(user.role) <==> user.role == ADMIN || user.role == MANAGER
    ensures user.role != ADMIN && user.role != MANAGER ==>
              !CanEditActivity(user.role) && EditPermission(a, user, now) == Next
    ensures user.role == ADMIN ==> EditPermission(a, user, now) == Next
    ensures user.role == MANAGER ==>
              (EditPermission(a, user, now) == Next <==> a.createdBy == user.id && WithinHours(a.createdAt, now, 24))
  {
    assert ADMIN != MANAGER by { assert ADMIN[0] != MANAGER[0]; }
  }

  /** The day handed to the customers modal: the date text before the
      first `T`. */
  function DateOnly(date: string): (r: string)
    ensures 'T' !in r
    ensures |r| <= |date| && date[..|r|] == r
  {
    var parts := Split(date, 'T');
    JoinPrefix(parts, 'T');
    parts[0]
  }

  /** A joined text starts with its first part. */
  lemma JoinPrefix(parts: seq<string>, sep: char)
    requires |parts| >= 1
    ensures var s := Join(parts, sep); |parts[0]| <= |s| && s[..|parts[0]|] == parts[0]
  {
    if |parts| > 1 {
      var s := Join(parts, sep);
      assert s == parts[0] + ([sep] + Join(parts[1..], sep));
    }
  }

  /** An ISO timestamp gives back its `YYYY-MM-DD` day, and a bare day is
      kept as it is. */
  lemma DateOnlyOfTimestamp(year: nat, month: nat, day: nat, rest: string)
    requires month < 100 && day < 100
    ensures DateOnly(DateText(year, month, day) + "T" + rest) == DateText(year, month, day)
    ensures DateOnly(DateText(year, month, day)) == DateText(year, month, day)
  {
    var d := DateText(year, month, day);
    assert 'T' !in d by {
      assert forall k :: 0 <= k < |Decimal(year)| ==> '0' <= Decimal(year)[k] <= '9';
      assert d == Decimal(year) + "-" + Pad2(month) + "-" + Pad2(day);
    }
    SplitAfterPrefix(d, 'T', rest);
    assert d + "T" + rest == d + ['T'] + rest;
    SplitWithoutSeparator(d, 'T');
  }

  /** `truncate`: a dash for an empty text; otherwise the escaped text, cut
      to its first `maxLength` characters followed by `...` when longer. */
  function Truncate(text: string, maxLength: nat, escape: string -> string): (r: string)
    ensures text == "" ==> r == "-"
    ensures text != "" && |escape(text)| <= maxLength ==> r == escape(text)
    ensures text != "" && |escape(text)| > maxLength ==>
              |r| == maxLength + 3 && r[..maxLength] == escape(text)[..maxLength] && r[maxLength..] == "..."
  {
    if text == "" then "-"
    else
      var escaped := escape(text);
      if |escaped| > maxLength then escaped[..maxLength] + "..." else escaped
  }

  /** A cell is never empty and never longer than the limit plus the three
      dots, and what it shows before the dots is the start of the escaped
      text. */
  lemma TruncateBounds(text: string, maxLength: nat, escape: string -> string)
    requires text != ""
    ensures var r := Truncate(text, maxLength, escape);
            var e := escape(text);
            && |r| <= maxLength + 3
            && (e != "" ==> r != "")
            && (|r| <= maxLength ==> r == e)
            && exists n :: 0 <= n <= |r| && n <= |e| && r[..n] == e[..n] && (n == |r| || r[n..] == "...")
  {
    var r := Truncate(text, maxLength, escape);
    var e := escape(text);
    if |e| > maxLength {
      assert r[..maxLength] == e[..maxLength] && r[maxLength..] == "...";
    } else {
      assert r[..|r|] == e[..|r|];
    }
  }
}
