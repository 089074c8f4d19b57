/** The external API behind `authenticateApiKey`: the outlet status for a
    period and the day sentiment. The JavaScript `Date` parser, `formatDate`
    and the clock are parameters: `dayOf` reads a date string as a day
    number (none for an invalid date), `formatDay` writes a day number back. */
module ExternalApi {
  import opened Common
  import opened ActivityModel
  import opened Sentiment

  const NO_ACTIVITY: string := "Aucune activité trouvée dans la base de données"
  const BOTH_OR_NEITHER: string := "Les paramètres start_date et end_date doivent être tous les deux présents ou absents (format: YYYY-MM-DD)"
  const BAD_START: string := "start_date doit être au format YYYY-MM-DD"
  const BAD_END: string := "end_date doit être au format YYYY-MM-DD"
  const START_AFTER_END: string := "start_date ne peut pas être postérieure à end_date"
  const SPAN_TOO_LONG: string := "La plage de dates ne peut pas dépasser 90 jours"
  const BAD_DATE: string := "date doit être au format YYYY-MM-DD"
  const NO_ACTIVITY_ON: string := "Aucune activité trouvée pour la date "
  const MAX_SPAN_DAYS: int := 90

  /** `/^\d{4}-\d{2}-\d{2}$/`: the full-date shape of section 5.6 of
      RFC 3339. */
  predicate IsDateShape(s: string)
  {
    |s| == 10 && AllDigits(s[..4]) && s[4] == '-' && AllDigits(s[5..7]) && s[7] == '-' && AllDigits(s[8..])
  }

  /** `isValidDate`: the shape, then a date the parser accepts. */
  predicate IsValidDate(s: string, dayOf: string -> Option<int>)
  {
    IsDateShape(s) && dayOf(s).Some?
  }

  /** Year, month and day read back from a date of the right shape. */
  function DateFields(s: string): (nat, nat, nat)
    requires IsDateShape(s)
  {
    (DecimalValue(s[..4]), DecimalValue(s[5..7]), DecimalValue(s[8..]))
  }

  /** A four-digit year is written with four digits. */
  lemma FourDigits(y: nat)
    requires 1000 <= y <= 9999
    ensures |Decimal(y)| == 4
  {
    assert Decimal(y) == Decimal(y / 10) + [DigitChar(y % 10)];
    assert Decimal(y / 10) == Decimal(y / 100) + [DigitChar(y / 10 % 10)];
    assert Decimal(y / 100) == Decimal(y / 1000) + [DigitChar(y / 100 % 10)];
  }

  /** Dates written in the `YYYY-MM-DD` form pass the shape check, and
      reading the fields back gives year, month and day. */
  lemma DateTextRoundTrip(y: nat, m: nat, d: nat)
    requires 1000 <= y <= 9999 && m < 100 && d < 100
    ensures IsDateShape(DateText(y, m, d))
    ensures DateFields(DateText(y, m, d)) == (y, m, d)
  {
    FourDigits(y);
    DecimalRoundTrip(y);
    var s := DateText(y, m, d);
    assert s[..4] == Decimal(y) && s[5..7] == Pad2(m) && s[8..] == Pad2(d);
  }

  /** The period asked for: the latest day with activity, or a range of
      day numbers. */
  datatype Window = LatestDay | Range(from: int, to: int)

  /** The query-parameter checks of `GET /point-vente/status`, in order:
      both or neither, the two formats, the order, the 90-day span. */
  function StatusWindow(startDate: string, endDate: string, dayOf: string -> Option<int>): (r: Outcome<Window>)
    ensures r == Ok(LatestDay) <==> startDate == "" && endDate == ""
    ensures r.Fail? ==> r.status == 400
    ensures (startDate == "") != (endDate == "") ==> r == Fail(400, BOTH_OR_NEITHER)
    ensures startDate != "" && endDate != "" && !IsValidDate(startDate, dayOf) ==> r == Fail(400, BAD_START)
    ensures startDate != "" && IsValidDate(startDate, dayOf) && endDate != "" && !IsValidDate(endDate, dayOf) ==>
              r == Fail(400, BAD_END)
    ensures r.Ok? && r.value.Range? ==>
              IsValidDate(startDate, dayOf) && IsValidDate(endDate, dayOf)
              && r.value.from == dayOf(startDate).value && r.value.to == dayOf(endDate).value
              && r.value.from <= r.value.to <= r.value.from + MAX_SPAN_DAYS
    ensures startDate != "" && endDate != "" && IsValidDate(startDate, dayOf) && IsValidDate(endDate, dayOf) ==>
              var from, to := dayOf(startDate).value, dayOf(endDate).value;
              && (from > to ==> r == Fail(400, START_AFTER_END))
              && (from <= to && to - from > MAX_SPAN_DAYS ==> r == Fail(400, SPAN_TOO_LONG))
              && (from <= to <= from + MAX_SPAN_DAYS ==> r == Ok(Range(from, to)))
  {
    if startDate == "" && endDate == "" then Ok(LatestDay)
    else if startDate == "" || endDate == "" then Fail(400, BOTH_OR_NEITHER)
    else if !IsValidDate(startDate, dayOf) then Fail(400, BAD_START)
    else if !IsValidDate(endDate, dayOf) then Fail(400, BAD_END)
    else
      var from, to := dayOf(startDate).value, dayOf(endDate).value;
      if from > to then Fail(400, START_AFTER_END)
      else if to - from > MAX_SPAN_DAYS then Fail(400, SPAN_TOO_LONG)
      else Ok(Range(from, to))
  }

  /** The `reduce` over all activities: the latest date. */
  function Latest(rows: seq<Activity>): (d: int)
    requires rows != []
    ensures forall k :: 0 <= k < |rows| ==> rows[k].fields.date <= d
    ensures exists k :: 0 <= k < |rows| && rows[k].fields.date == d
  {
    if |rows| == 1 then rows[0].fields.date
    else
      var init := rows[..|rows| - 1];
      var last := rows[|rows| - 1].fields.date;
      var m := Latest(init);
      var k0 :| 0 <= k0 < |init| && init[k0].fields.date == m;
      if last > m then last
      else
        assert rows[k0].fields.date == m;
        m
  }

  /** The rows `Activity.findAll` returns for `f`, in table order. */
  function Select(rows: seq<Activity>, f: ActivityFilters): (r: seq<Activity>)
    ensures |r| <= |rows|
    ensures forall k :: 0 <= k < |r| ==> ListMatch(f, r[k])
  {
    if rows == [] then []
    else Select(rows[..|rows| - 1], f) + (if ListMatch(f, rows[|rows| - 1]) then [rows[|rows| - 1]] else [])
  }

  /** Every matching row is selected, and only those. */
  lemma {:induction false} SelectMembers(rows: seq<Activity>, f: ActivityFilters, a: Activity)
    ensures a in Select(rows, f) <==> a in rows && ListMatch(f, a)
  {
    if rows != [] {
      SelectMembers(rows[..|rows| - 1], f, a);
      assert rows == rows[..|rows| - 1] + [rows[|rows| - 1]];
    }
  }

  /** The filters for one day. */
  function OneDay(d: int): ActivityFilters
  {
    ActivityFilters(Some(d), Some(d), "")
  }

  /** The latest day has at least one activity. */
  lemma LatestDayNotEmpty(rows: seq<Activity>)
    requires rows != []
    ensures Select(rows, OneDay(Latest(rows))) != []
  {
    var k :| 0 <= k < |rows| && rows[k].fields.date == Latest(rows);
    SelectMembers(rows, OneDay(Latest(rows)), rows[k]);
  }

  /** The activities the status reports on, and the period echoed back. */
  datatype Selection = Selection(start: string, end: string, activities: seq<Activity>)

  /** The first half of `GET /point-vente/status`: the checks, then the
      activities of the latest day (404 on an empty table) or of the range. */
  function SelectActivities(rows: seq<Activity>, startDate: string, endDate: string,
                            dayOf: string -> Option<int>, formatDay: int -> string): (r: Outcome<Selection>)
    ensures StatusWindow(startDate, endDate, dayOf).Fail? ==>
              r == Fail(StatusWindow(startDate, endDate, dayOf).status, StatusWindow(startDate, endDate, dayOf).error)
    ensures startDate == "" && endDate == "" ==> (rows == [] <==> r == Fail(404, NO_ACTIVITY))
    ensures startDate == "" && endDate == "" && rows != [] ==>
              r.Ok? && r.value.activities != []
              && r.value.activities == Select(rows, OneDay(Latest(rows)))
              && r.value.start == r.value.end == formatDay(Latest(rows))
    ensures StatusWindow(startDate, endDate, dayOf).Ok? && StatusWindow(startDate, endDate, dayOf).value.Range? ==>
              var w := StatusWindow(startDate, endDate, dayOf).value;
              r == Ok(Selection(startDate, endDate, Select(rows, ActivityFilters(Some(w.from), Some(w.to), ""))))
  {
    match StatusWindow(startDate, endDate, dayOf)
    case Fail(status, error) => Fail(status, error)
    case Ok(LatestDay) =>
      if rows == [] then Fail(404, NO_ACTIVITY)
      else
        var latest := Latest(rows);
        LatestDayNotEmpty(rows);
        Ok(Selection(formatDay(latest), formatDay(latest), Select(rows, OneDay(latest))))
    case Ok(Range(from, to)) =>
      Ok(Selection(startDate, endDate, Select(rows, ActivityFilters(Some(from), Some(to), ""))))
  }

  /** One activity as the response lists it. */
  datatype Entry = Entry(
    pointDeVente: string,
    responsable: string,
    note: Option<string>,
    plaintes: string,
    produitsManquants: string,
    commentaireLivreurs: string,
    commentaires: string)

  /** `text || 'neant'`. */
  function OrNeant(t: string): (r: string)
    ensures r != ""
    ensures t != "" ==> r == t
    ensures t == "" ==> r == NEANT
  {
    if t != "" then t else NEANT
  }

  function EntryOf(a: Activity): Entry
  {
    Entry(a.fields.pointVente, a.fields.responsable, a.fields.noteVentes,
          OrNeant(a.fields.plaintesClient), OrNeant(a.fields.produitsManquants),
          OrNeant(a.fields.commentaireLivreurs), OrNeant(a.fields.commentaire))
  }

  /** Every comment of the list is valid. */
  predicate AllValid(cs: seq<string>)
  {
    forall k :: 0 <= k < |cs| ==> IsValidComment(cs[k])
  }

  /** A labelled comment is always valid: its label starts with a visible
      capital other than `N`. */
  lemma LabelledIsValid(prefix: string, t: string)
    requires prefix != [] && 'A' <= prefix[0] <= 'Z' && prefix[0] != 'N'
    ensures IsValidComment(prefix + t)
  {
    var c := prefix + t;
    assert c[0] == prefix[0];
    VisibleIsValid(c);
  }

  /** The comments one activity contributes to its outlet: complaint,
      general comment, delivery comment, each only when it is a valid
      comment, each with its label. Missing products never count. */
  function ActivityComments(a: Activity): (r: seq<string>)
    ensures |r| <= 3
  {
    var f := a.fields;
    (if IsValidComment(f.plaintesClient) then ["Plainte: " + f.plaintesClient] else [])
    + (if IsValidComment(f.commentaire) then ["Commentaire: " + f.commentaire] else [])
    + (if IsValidComment(f.commentaireLivreurs) then ["Livreur: " + f.commentaireLivreurs] else [])
  }

  /** What the route collects passes the service's own filter. */
  lemma ActivityCommentsValid(a: Activity)
    ensures AllValid(ActivityComments(a))
  {
    var f := a.fields;
    var x := if IsValidComment(f.plaintesClient) then ["Plainte: " + f.plaintesClient] else [];
    var y := if IsValidComment(f.commentaire) then ["Commentaire: " + f.commentaire] else [];
    var z := if IsValidComment(f.commentaireLivreurs) then ["Livreur: " + f.commentaireLivreurs] else [];
    assert AllValid(x) by { LabelledIsValid("Plainte: ", f.plaintesClient); }
    assert AllValid(y) by { LabelledIsValid("Commentaire: ", f.commentaire); }
    assert AllValid(z) by { LabelledIsValid("Livreur: ", f.commentaireLivreurs); }
    AllValidConcat(x, y);
    AllValidConcat(x + y, z);
  }

  /** Valid lists concatenate to a valid list. */
  lemma AllValidConcat(x: seq<string>, y: seq<string>)
    requires AllValid(x) && AllValid(y)
    ensures AllValid(x + y)
  {
    forall k | 0 <= k < |x + y|
      ensures IsValidComment((x + y)[k])
    {
      if k < |x| { assert (x + y)[k] == x[k]; } else { assert (x + y)[k] == y[k - |x|]; }
    }
  }

  /** A text field is reported exactly when it is a valid comment, and the
      complaint comes first. */
  lemma ActivityCommentsChosen(a: Activity)
    ensures "Plainte: " + a.fields.plaintesClient in ActivityComments(a) <==> IsValidComment(a.fields.plaintesClient)
    ensures "Commentaire: " + a.fields.commentaire in ActivityComments(a) <==> IsValidComment(a.fields.commentaire)
    ensures "Livreur: " + a.fields.commentaireLivreurs in ActivityComments(a) <==> IsValidComment(a.fields.commentaireLivreurs)
    ensures IsValidComment(a.fields.plaintesClient) ==> ActivityComments(a)[0] == "Plainte: " + a.fields.plaintesClient
  {
    var f := a.fields;
    var p := "Plainte: " + f.plaintesClient;
    var c := "Commentaire: " + f.commentaire;
    var l := "Livreur: " + f.commentaireLivreurs;
    assert p[0] == 'P' && c[0] == 'C' && l[0] == 'L';
    assert p != c && p != l && l != c;
  }

  /** The activity dates, in order. */
  function DatesOf(acts: seq<Activity>): (r: seq<int>)
    ensures |r| == |acts| && forall k :: 0 <= k < |acts| ==> r[k] == acts[k].fields.date
  {
    if acts == [] then [] else DatesOf(acts[..|acts| - 1]) + [acts[|acts| - 1].fields.date]
  }

  /** The distinct values in order of first appearance, as an object's keys
      or a `Set` keep them. */
  function FirstSeen<T(==)>(xs: seq<T>): (r: seq<T>)
    ensures forall i, j :: 0 <= i < j < |r| ==> r[i] != r[j]
  {
    if xs == [] then []
    else
      var r := FirstSeen(xs[..|xs| - 1]);
      if xs[|xs| - 1] in r then r else r + [xs[|xs| - 1]]
  }

  lemma {:induction false} FirstSeenMembers<T>(xs: seq<T>, x: T)
    ensures x in FirstSeen(xs) <==> x in xs
  {
    if xs != [] {
      FirstSeenMembers(xs[..|xs| - 1], x);
      assert xs == xs[..|xs| - 1] + [xs[|xs| - 1]];
    }
  }

  /** The entries of the day `d`, in activity order. */
  function EntriesOn(acts: seq<Activity>, d: int): seq<Entry>
  {
    if acts == [] then []
    else
      var a := acts[|acts| - 1];
      EntriesOn(acts[..|acts| - 1], d) + (if a.fields.date == d then [EntryOf(a)] else [])
  }

  /** The comments collected for outlet `p`, in activity order. */
  function OutletComments(acts: seq<Activity>, p: string): seq<string>
  {
    if acts == [] then []
    else
      var a := acts[|acts| - 1];
      OutletComments(acts[..|acts| - 1], p) + (if a.fields.pointVente == p then ActivityComments(a) else [])
  }

  /** A day without activity has no entries, an outlet without activity no
      comments. */
  lemma {:induction false} AbsentIsEmpty(acts: seq<Activity>, d: int, p: string)
    ensures d !in DatesOf(acts) ==> EntriesOn(acts, d) == []
    ensures p !in PointsVente(acts) ==> OutletComments(acts, p) == []
  {
    if acts != [] {
      var init := acts[..|acts| - 1];
      AbsentIsEmpty(init, d, p);
      assert DatesOf(acts)[|acts| - 1] == acts[|acts| - 1].fields.date;
      assert PointsVente(acts)[|acts| - 1] == acts[|acts| - 1].fields.pointVente;
      assert d !in DatesOf(acts) ==> d !in DatesOf(init) by {
        if d in DatesOf(init) {
          var k :| 0 <= k < |init| && DatesOf(init)[k] == d;
          assert DatesOf(acts)[k] == d;
        }
      }
      assert p !in PointsVente(acts) ==> p !in PointsVente(init) by {
        if p in PointsVente(init) {
          var k :| 0 <= k < |init| && PointsVente(init)[k] == p;
          assert PointsVente(acts)[k] == p;
        }
      }
    }
  }

  /** The service keeps every comment the route collects for an outlet, so
      its `total_comments` is the length of the list. */
  lemma {:induction false} OutletCommentsAllValid(acts: seq<Activity>, p: string)
    ensures AllValid(OutletComments(acts, p))
    ensures ValidComments(OutletComments(acts, p)) == OutletComments(acts, p)
  {
    if acts != [] {
      var a := acts[|acts| - 1];
      OutletCommentsAllValid(acts[..|acts| - 1], p);
      ActivityCommentsValid(a);
    }
    FilterKeepsAll(OutletComments(acts, p), IsValidComment);
  }

  /** How the loop's spec functions grow by one activity. */
  lemma DatesOfSnoc(xs: seq<Activity>, a: Activity)
    ensures DatesOf(xs + [a]) == DatesOf(xs) + [a.fields.date]
  {
    var ys := xs + [a];
    assert ys[..|xs|] == xs && ys[|xs|] == a;
  }

  lemma PointsVenteSnoc(xs: seq<Activity>, a: Activity)
    ensures PointsVente(xs + [a]) == PointsVente(xs) + [a.fields.pointVente]
  {
    var ys := xs + [a];
    assert ys[..|xs|] == xs && ys[|xs|] == a;
  }

  lemma EntriesOnSnoc(xs: seq<Activity>, a: Activity, d: int)
    ensures EntriesOn(xs + [a], d) == EntriesOn(xs, d) + (if a.fields.date == d then [EntryOf(a)] else [])
  {
    var ys := xs + [a];
    assert ys[..|xs|] == xs && ys[|xs|] == a;
  }

  lemma OutletCommentsSnoc(xs: seq<Activity>, a: Activity, p: string)
    ensures OutletComments(xs + [a], p) ==
              OutletComments(xs, p) + (if a.fields.pointVente == p then ActivityComments(a) else [])
  {
    var ys := xs + [a];
    assert ys[..|xs|] == xs && ys[|xs|] == a;
  }

  /** What the grouping loop keeps about the dates of the activities seen. */
  ghost predicate DatesGrouped(xs: seq<Activity>, groups: map<int, seq<Entry>>, dateKeys: seq<int>)
  {
    && dateKeys == FirstSeen(DatesOf(xs))
    && (forall d :: d in groups <==> d in dateKeys)
    && (forall d :: d in groups ==> groups[d] == EntriesOn(xs, d))
  }

  /** What the grouping loop keeps about the outlets of the activities seen. */
  ghost predicate CommentsCollected(xs: seq<Activity>, comments: map<string, seq<string>>, outlets: seq<string>)
  {
    && outlets == FirstSeen(PointsVente(xs))
    && (forall p :: p in comments <==> p in outlets)
    && (forall p :: p in comments ==> comments[p] == OutletComments(xs, p))
  }

  function Get<K, V>(m: map<K, seq<V>>, k: K): seq<V>
  {
    if k in m then m[k] else []
  }

  lemma DatesGroupedStep(xs: seq<Activity>, a: Activity, groups: map<int, seq<Entry>>, dateKeys: seq<int>)
    requires DatesGrouped(xs, groups, dateKeys)
    ensures DatesGrouped(xs + [a],
                         groups[a.fields.date := Get(groups, a.fields.date) + [EntryOf(a)]],
                         if a.fields.date in groups then dateKeys else dateKeys + [a.fields.date])
  {
    var d := a.fields.date;
    var ys := xs + [a];
    var groups' := groups[d := Get(groups, d) + [EntryOf(a)]];
    var keys' := if d in groups then dateKeys else dateKeys + [d];
    assert keys' == FirstSeen(DatesOf(ys)) by {
      DatesOfSnoc(xs, a);
      FirstSeenMembers(DatesOf(xs), d);
      var ds := DatesOf(ys);
      assert ds[..|ds| - 1] == DatesOf(xs) && ds[|ds| - 1] == d;
    }
    forall e | e in groups' ensures groups'[e] == EntriesOn(ys, e) {
      EntriesOnSnoc(xs, a, e);
      if e == d && d !in groups {
        FirstSeenMembers(DatesOf(xs), d);
        AbsentIsEmpty(xs, d, a.fields.pointVente);
      }
    }
  }

  lemma CommentsCollectedStep(xs: seq<Activity>, a: Activity, comments: map<string, seq<string>>, outlets: seq<string>)
    requires CommentsCollected(xs, comments, outlets)
    ensures CommentsCollected(xs + [a],
                              comments[a.fields.pointVente := Get(comments, a.fields.pointVente) + ActivityComments(a)],
                              if a.fields.pointVente in outlets then outlets else outlets + [a.fields.pointVente])
  {
    var p := a.fields.pointVente;
    var ys := xs + [a];
    var comments' := comments[p := Get(comments, p) + ActivityComments(a)];
    var outlets' := if p in outlets then outlets else outlets + [p];
    assert outlets' == FirstSeen(PointsVente(ys)) by {
      PointsVenteSnoc(xs, a);
      FirstSeenMembers(PointsVente(xs), p);
      var ps := PointsVente(ys);
      assert ps[..|ps| - 1] == PointsVente(xs) && ps[|ps| - 1] == p;
    }
    forall q | q in comments' ensures comments'[q] == OutletComments(ys, q) {
      OutletCommentsSnoc(xs, a, q);
      if q == p && p !in comments {
        FirstSeenMembers(PointsVente(xs), p);
        AbsentIsEmpty(xs, a.fields.date, p);
      }
    }
  }

  /** The two step lemmas at position `i` of the activities. */
  lemma GroupedNext(acts: seq<Activity>, i: nat, groups: map<int, seq<Entry>>, dateKeys: seq<int>,
                    comments: map<string, seq<string>>, outlets: seq<string>)
    requires i < |acts|
    requires DatesGrouped(acts[..i], groups, dateKeys)
    requires CommentsCollected(acts[..i], comments, outlets)
    ensures var a := acts[i];
            DatesGrouped(acts[..i + 1],
                         groups[a.fields.date := Get(groups, a.fields.date) + [EntryOf(a)]],
                         if a.fields.date in groups then dateKeys else dateKeys + [a.fields.date])
    ensures var a := acts[i];
            CommentsCollected(acts[..i + 1],
                              comments[a.fields.pointVente := Get(comments, a.fields.pointVente) + ActivityComments(a)],
                              if a.fields.pointVente in outlets then outlets else outlets + [a.fields.pointVente])
  {
    assert acts[..i + 1] == acts[..i] + [acts[i]];
    DatesGroupedStep(acts[..i], acts[i], groups, dateKeys);
    CommentsCollectedStep(acts[..i], acts[i], comments, outlets);
  }

  lemma AppendThree(s: seq<string>, x: seq<string>, y: seq<string>, z: seq<string>)
    ensures s + x + y + z == s + (x + y + z)
  {
  }

  /** The three conditional `push`es of one activity's comments, onto a
      list created on the outlet's first activity. */
  method CollectComments(comments: map<string, seq<string>>, p: string, a: Activity)
    returns (updated: map<string, seq<string>>)
    ensures updated == comments[p := Get(comments, p) + ActivityComments(a)]
  {
    var list := Get(comments, p);
    ghost var start := list;
    var f := a.fields;
    var keepPlainte, keepCommentaire, keepLivreur :=
      IsValidComment(f.plaintesClient), IsValidComment(f.commentaire), IsValidComment(f.commentaireLivreurs);
    ghost var plainte := if keepPlainte then ["Plainte: " + f.plaintesClient] else [];
    ghost var commentaire := if keepCommentaire then ["Commentaire: " + f.commentaire] else [];
    ghost var livreur := if keepLivreur then ["Livreur: " + f.commentaireLivreurs] else [];
    assert ActivityComments(a) == plainte + commentaire + livreur;
    if keepPlainte {
      list := list + ["Plainte: " + f.plaintesClient];
    }
    assert list == start + plainte;
    if keepCommentaire {
      list := list + ["Commentaire: " + f.commentaire];
    }
    assert list == start + plainte + commentaire;
    if keepLivreur {
      list := list + ["Livreur: " + f.commentaireLivreurs];
    }
    AppendThree(start, plainte, commentaire, livreur);
    assert list == Get(comments, p) + ActivityComments(a);
    updated := comments[p := list];
  }

  /** The first entry of a day creates its group, the others append to it. */
  method AddEntry(groups: map<int, seq<Entry>>, dateKeys: seq<int>, a: Activity)
    returns (groups': map<int, seq<Entry>>, dateKeys': seq<int>)
    ensures groups' == groups[a.fields.date := Get(groups, a.fields.date) + [EntryOf(a)]]
    ensures dateKeys' == if a.fields.date in groups then dateKeys else dateKeys + [a.fields.date]
  {
    var dateKey := a.fields.date;
    groups', dateKeys' := groups, dateKeys;
    if dateKey !in groups' {
      groups' := groups'[dateKey := []];
      dateKeys' := dateKeys' + [dateKey];
    }
    groups' := groups'[dateKey := groups'[dateKey] + [EntryOf(a)]];
  }

  /** The `forEach` of the status route: entries grouped by date, the
      outlets in order of first appearance, and each outlet's comments. */
  method GroupByDate(acts: seq<Activity>)
    returns (groups: map<int, seq<Entry>>, dateKeys: seq<int>,
             comments: map<string, seq<string>>, outlets: seq<string>)
    ensures DatesGrouped(acts, groups, dateKeys)
    ensures CommentsCollected(acts, comments, outlets)
  {
    groups, dateKeys, comments, outlets := map[], [], map[], [];
    var i := 0;
    while i < |acts|
      invariant 0 <= i <= |acts|
      invariant DatesGrouped(acts[..i], groups, dateKeys)
      invariant CommentsCollected(acts[..i], comments, outlets)
    {
      var a := acts[i];
      GroupedNext(acts, i, groups, dateKeys, comments, outlets);
      if a.fields.pointVente !in outlets {
        outlets := outlets + [a.fields.pointVente];
      }
      groups, dateKeys := AddEntry(groups, dateKeys, a);
      comments := CollectComments(comments, a.fields.pointVente, a);
      i := i + 1;
    }
    assert acts[..|acts|] == acts;
  }

  /** The number of entries in the groups of `keys`. */
  function GroupSizes(acts: seq<Activity>, keys: seq<int>): nat
  {
    if keys == [] then 0 else |EntriesOn(acts, keys[0])| + GroupSizes(acts, keys[1..])
  }

  predicate Distinct(keys: seq<int>)
  {
    forall i, j :: 0 <= i < j < |keys| ==> keys[i] != keys[j]
  }

  /** One more activity adds one entry to the groups, when its date is
      among the keys. */
  lemma {:induction false} GroupSizesStep(xs: seq<Activity>, a: Activity, keys: seq<int>)
    requires Distinct(keys)
    ensures GroupSizes(xs + [a], keys) == GroupSizes(xs, keys) + (if a.fields.date in keys then 1 else 0)
  {
    if keys != [] {
      GroupSizesStep(xs, a, keys[1..]);
      var ys := xs + [a];
      assert ys[..|ys| - 1] == xs && ys[|ys| - 1] == a;
      assert a.fields.date in keys[1..] ==> a.fields.date != keys[0] by {
        if a.fields.date in keys[1..] {
          var j :| 0 <= j < |keys[1..]| && keys[1..][j] == a.fields.date;
          assert keys[j + 1] == a.fields.date;
        }
      }
      assert a.fields.date in keys <==> a.fields.date == keys[0] || a.fields.date in keys[1..] by {
        assert keys == [keys[0]] + keys[1..];
      }
    }
  }

  /** Every activity lands in exactly one group: over distinct keys that
      cover all dates, the group sizes add up to the number of activities. */
  lemma {:induction false} EveryActivityGroupedOnce(acts: seq<Activity>, keys: seq<int>)
    requires Distinct(keys)
    requires forall k :: 0 <= k < |acts| ==> acts[k].fields.date in keys
    ensures GroupSizes(acts, keys) == |acts|
  {
    if acts == [] {
      NoActivitiesNoEntries(keys);
    } else {
      var xs := acts[..|acts| - 1];
      var a := acts[|acts| - 1];
      assert acts == xs + [a];
      EveryActivityGroupedOnce(xs, keys);
      GroupSizesStep(xs, a, keys);
    }
  }

  lemma {:induction false} NoActivitiesNoEntries(keys: seq<int>)
    ensures GroupSizes([], keys) == 0
  {
    if keys != [] { NoActivitiesNoEntries(keys[1..]); }
  }

  /** Each activity's entry is in the group of its date. */
  lemma {:induction false} EntryInItsGroup(acts: seq<Activity>, k: nat)
    requires k < |acts|
    ensures EntryOf(acts[k]) in EntriesOn(acts, acts[k].fields.date)
  {
    var init := acts[..|acts| - 1];
    if k < |acts| - 1 {
      EntryInItsGroup(init, k);
      assert init[k] == acts[k];
    }
  }

  predicate StrictlyDescending(s: seq<int>)
  {
    forall i, j :: 0 <= i < j < |s| ==> s[i] > s[j]
  }

  function InsertDesc(xs: seq<int>, x: int): (r: seq<int>)
    requires StrictlyDescending(xs)
    ensures StrictlyDescending(r)
    ensures forall y :: y in r <==> y in xs || y == x
  {
    if xs == [] then [x]
    else if x == xs[0] then xs
    else if x > xs[0] then [x] + xs
    else
      var rest := InsertDesc(xs[1..], x);
      assert forall y :: y in rest ==> y < xs[0] by {
        forall y | y in rest ensures y < xs[0] {
          if y != x {
            var j :| 0 <= j < |xs[1..]| && xs[1..][j] == y;
            assert xs[j + 1] == y;
          }
        }
      }
      var r := [xs[0]] + rest;
      assert forall j :: 0 < j < |r| ==> r[j] in rest by {
        forall j | 0 < j < |r| ensures r[j] in rest { assert r[j] == rest[j - 1]; }
      }
      assert xs == [xs[0]] + xs[1..];
      r
  }

  /** `.sort((a, b) => new Date(b) - new Date(a))` on the date keys. */
  function NewestFirst(keys: seq<int>): (r: seq<int>)
    ensures StrictlyDescending(r)
    ensures forall y :: y in r <==> y in keys
  {
    if keys == [] then []
    else
      assert keys == keys[..|keys| - 1] + [keys[|keys| - 1]];
      InsertDesc(NewestFirst(keys[..|keys| - 1]), keys[|keys| - 1])
  }

  /** The client comments the customer model returns for an outlet: the
      comments and the date they come from. */
  datatype ClientComments = ClientComments(comments: seq<string>, latestDate: Option<string>)

  /** What each entry carries about its outlet's clients. */
  datatype ClientSentiment =
    | NoClientData
    | ClientAnalysis(analysis: PointVenteSentiment, latestDate: Option<string>)

  /** The record the route substitutes when an analysis throws. */
  const ROUTE_FALLBACK: PointVenteSentiment :=
    PointVenteSentiment("unknown", None, "Erreur lors de l'analyse", None, None, None, None, false)

  /** The outlet's activity analysis, or the fallback. */
  function OutletSentiment(p: string, comments: seq<string>,
                           analyse: (string, seq<string>) -> Attempt<PointVenteSentiment>): (r: PointVenteSentiment)
    ensures analyse(p, comments).Done? ==> r == analyse(p, comments).value
    ensures analyse(p, comments).Threw? ==> r == ROUTE_FALLBACK
  {
    match analyse(p, comments)
    case Done(v) => v
    case Threw(_) => ROUTE_FALLBACK
  }

  /** The outlet's client analysis: no data, the analysis of
      `<outlet> - Commentaires clients` with the date of the comments, or
      the fallback without a date when the lookup or the analysis throws. */
  function ClientSentimentOf(p: string, fetch: string -> Attempt<Option<ClientComments>>,
                             analyse: (string, seq<string>) -> Attempt<PointVenteSentiment>): (r: ClientSentiment)
    ensures fetch(p) == Done(None) <==> r == NoClientData
    ensures fetch(p).Threw? ==> r == ClientAnalysis(ROUTE_FALLBACK, None)
    ensures fetch(p).Done? && fetch(p).value.Some? ==>
              var c := fetch(p).value.value;
              r == (if analyse(p + CLIENT_SUFFIX, c.comments).Done?
                    then ClientAnalysis(analyse(p + CLIENT_SUFFIX, c.comments).value, c.latestDate)
                    else ClientAnalysis(ROUTE_FALLBACK, None))
  {
    match fetch(p)
    case Threw(_) => ClientAnalysis(ROUTE_FALLBACK, None)
    case Done(None) => NoClientData
    case Done(Some(c)) =>
      match analyse(p + CLIENT_SUFFIX, c.comments)
      case Done(v) => ClientAnalysis(v, c.latestDate)
      case Threw(_) => ClientAnalysis(ROUTE_FALLBACK, None)
  }

  /** The first `for` loop: one activity analysis per outlet. */
  method SummariseOutlets(outlets: seq<string>, comments: map<string, seq<string>>,
                          analyse: (string, seq<string>) -> Attempt<PointVenteSentiment>)
    returns (byOutlet: map<string, PointVenteSentiment>)
    requires forall p :: p in outlets ==> p in comments
    ensures forall p :: p in byOutlet <==> p in outlets
    ensures forall p :: p in byOutlet ==> byOutlet[p] == OutletSentiment(p, comments[p], analyse)
  {
    byOutlet := map[];
    var i := 0;
    while i < |outlets|
      invariant 0 <= i <= |outlets|
      invariant forall p :: p in byOutlet <==> p in outlets[..i]
      invariant forall p :: p in byOutlet ==> byOutlet[p] == OutletSentiment(p, comments[p], analyse)
    {
      var p := outlets[i];
      var result := analyse(p, comments[p]);
      if result.Done? {
        byOutlet := byOutlet[p := result.value];
      } else {
        byOutlet := byOutlet[p := ROUTE_FALLBACK];
      }
      assert outlets[..i + 1] == outlets[..i] + [p];
      i := i + 1;
    }
    assert outlets[..|outlets|] == outlets;
  }

  /** The second `for` loop: one client analysis per outlet. */
  method SummariseClients(outlets: seq<string>, fetch: string -> Attempt<Option<ClientComments>>,
                          analyse: (string, seq<string>) -> Attempt<PointVenteSentiment>)
    returns (byOutlet: map<string, ClientSentiment>)
    ensures forall p :: p in byOutlet <==> p in outlets
    ensures forall p :: p in byOutlet ==> byOutlet[p] == ClientSentimentOf(p, fetch, analyse)
  {
    byOutlet := map[];
    var i := 0;
    while i < |outlets|
      invariant 0 <= i <= |outlets|
      invariant forall p :: p in byOutlet <==> p in outlets[..i]
      invariant forall p :: p in byOutlet ==> byOutlet[p] == ClientSentimentOf(p, fetch, analyse)
    {
      var p := outlets[i];
      var data := fetch(p);
      if data.Threw? {
        byOutlet := byOutlet[p := ClientAnalysis(ROUTE_FALLBACK, None)];
      } else if data.value.None? {
        byOutlet := byOutlet[p := NoClientData];
      } else {
        var analysis := analyse(p + CLIENT_SUFFIX, data.value.value.comments);
        if analysis.Done? {
          byOutlet := byOutlet[p := ClientAnalysis(analysis.value, data.value.value.latestDate)];
        } else {
          byOutlet := byOutlet[p := ClientAnalysis(ROUTE_FALLBACK, None)];
        }
      }
      assert outlets[..i + 1] == outlets[..i] + [p];
      i := i + 1;
    }
    assert outlets[..|outlets|] == outlets;
  }

  /** An entry with the two analyses of its outlet, when there are. */
  datatype Annotated = Annotated(entry: Entry, sentiment: Option<PointVenteSentiment>,
                                 clientSentiment: Option<ClientSentiment>)

  function Lookup<V>(m: map<string, V>, k: string): (r: Option<V>)
    ensures r.Some? <==> k in m
    ensures r.Some? ==> r.value == m[k]
  {
    if k in m then Some(m[k]) else None
  }

  function AnnotateEntry(e: Entry, sentiments: map<string, PointVenteSentiment>,
                         clients: map<string, ClientSentiment>): Annotated
  {
    Annotated(e, Lookup(sentiments, e.pointDeVente), Lookup(clients, e.pointDeVente))
  }

  /** The annotation loop: every entry of every date gets its outlet's
      analyses. */
  method Annotate(groups: map<int, seq<Entry>>, dateKeys: seq<int>,
                  sentiments: map<string, PointVenteSentiment>, clients: map<string, ClientSentiment>)
    returns (annotated: map<int, seq<Annotated>>)
    requires forall d :: d in groups <==> d in dateKeys
    ensures forall d :: d in annotated <==> d in groups
    ensures forall d :: d in annotated ==>
              |annotated[d]| == |groups[d]|
              && forall k :: 0 <= k < |groups[d]| ==> annotated[d][k] == AnnotateEntry(groups[d][k], sentiments, clients)
  {
    annotated := map[];
    var i := 0;
    while i < |dateKeys|
      invariant 0 <= i <= |dateKeys|
      invariant forall d :: d in annotated <==> d in dateKeys[..i]
      invariant forall d :: d in annotated ==>
                  |annotated[d]| == |groups[d]|
                  && forall k :: 0 <= k < |groups[d]| ==> annotated[d][k] == AnnotateEntry(groups[d][k], sentiments, clients)
    {
      var d := dateKeys[i];
      var entries := groups[d];
      var list: seq<Annotated> := [];
      var j := 0;
      while j < |entries|
        invariant 0 <= j <= |entries|
        invariant |list| == j
        invariant forall k :: 0 <= k < j ==> list[k] == AnnotateEntry(entries[k], sentiments, clients)
      {
        list := list + [AnnotateEntry(entries[j], sentiments, clients)];
        j := j + 1;
      }
      annotated := annotated[d := list];
      assert dateKeys[..i + 1] == dateKeys[..i] + [d];
      i := i + 1;
    }
    assert dateKeys[..|dateKeys|] == dateKeys;
  }

  /** The `sortedData` object: the annotated groups, newest date first. */
  method SortByNewest(annotated: map<int, seq<Annotated>>, dateKeys: seq<int>)
    returns (data: seq<(int, seq<Annotated>)>)
    requires forall d :: d in annotated <==> d in dateKeys
    ensures |data| == |NewestFirst(dateKeys)|
    ensures forall k :: 0 <= k < |data| ==>
              data[k].0 == NewestFirst(dateKeys)[k] && data[k].0 in annotated && data[k].1 == annotated[data[k].0]
  {
    var sorted := NewestFirst(dateKeys);
    data := [];
    var i := 0;
    while i < |sorted|
      invariant 0 <= i <= |sorted|
      invariant |data| == i
      invariant forall k :: 0 <= k < i ==> data[k].0 == sorted[k] && data[k].0 in annotated && data[k].1 == annotated[data[k].0]
    {
      var key := sorted[i];
      assert key in dateKeys;
      data := data + [(key, annotated[key])];
      i := i + 1;
    }
  }

  /** The response of `GET /point-vente/status`. */
  datatype StatusResponse =
    | StatusOk(data: seq<(int, seq<Annotated>)>, count: nat, start: string, end: string)
    | StatusError(status: nat, error: string)

  /** Each entry's outlet is among the outlets of the activities. */
  lemma {:induction false} EntryOutlet(acts: seq<Activity>, d: int, k: nat)
    requires k < |EntriesOn(acts, d)|
    ensures EntriesOn(acts, d)[k].pointDeVente in PointsVente(acts)
  {
    var init := acts[..|acts| - 1];
    var a := acts[|acts| - 1];
    assert acts == init + [a];
    EntriesOnSnoc(init, a, d);
    PointsVenteSnoc(init, a);
    if k < |EntriesOn(init, d)| {
      EntryOutlet(init, d, k);
    } else {
      assert EntriesOn(acts, d)[k] == EntryOf(a);
    }
  }

  /** An annotated entry: the entry with its outlet's two analyses. */
  predicate Annotates(x: Annotated, e: Entry, acts: seq<Activity>,
                      analyse: (string, seq<string>) -> Attempt<PointVenteSentiment>,
                      fetch: string -> Attempt<Option<ClientComments>>)
  {
    && x.entry == e
    && x.sentiment == Some(OutletSentiment(e.pointDeVente, OutletComments(acts, e.pointDeVente), analyse))
    && x.clientSentiment == Some(ClientSentimentOf(e.pointDeVente, fetch, analyse))
  }

  ghost predicate HasGroup(data: seq<(int, seq<Annotated>)>, d: int)
  {
    exists i :: 0 <= i < |data| && data[i].0 == d
  }

  /** What the status data says about the activities of the period: one
      group per day with activity, newest first, each holding that day's
      entries in activity order with their outlets' analyses. */
  ghost predicate Reports(data: seq<(int, seq<Annotated>)>, acts: seq<Activity>,
                    analyse: (string, seq<string>) -> Attempt<PointVenteSentiment>,
                    fetch: string -> Attempt<Option<ClientComments>>)
  {
    && (forall i, j :: 0 <= i < j < |data| ==> data[i].0 > data[j].0)
    && (forall k :: 0 <= k < |acts| ==> HasGroup(data, acts[k].fields.date))
    && (forall i :: 0 <= i < |data| ==> data[i].0 in DatesOf(acts))
    && (forall i :: 0 <= i < |data| ==> |data[i].1| == |EntriesOn(acts, data[i].0)|)
    && (forall i, k :: 0 <= i < |data| && 0 <= k < |data[i].1| ==>
          Annotates(data[i].1[k], EntriesOn(acts, data[i].0)[k], acts, analyse, fetch))
  }

  /** Every activity date has its group in the sorted data. */
  lemma SortedHasDate(acts: seq<Activity>, dateKeys: seq<int>, data: seq<(int, seq<Annotated>)>, k: nat)
    requires dateKeys == FirstSeen(DatesOf(acts))
    requires |data| == |NewestFirst(dateKeys)|
    requires forall i :: 0 <= i < |data| ==> data[i].0 == NewestFirst(dateKeys)[i]
    requires k < |acts|
    ensures HasGroup(data, acts[k].fields.date)
  {
    var sorted := NewestFirst(dateKeys);
    var d := acts[k].fields.date;
    assert DatesOf(acts)[k] == d;
    FirstSeenMembers(DatesOf(acts), d);
    assert d in sorted;
    var i :| 0 <= i < |sorted| && sorted[i] == d;
    assert data[i].0 == d;
  }

  /** Every group of the sorted data is an activity date. */
  lemma SortedIsDate(acts: seq<Activity>, dateKeys: seq<int>, data: seq<(int, seq<Annotated>)>, i: nat)
    requires dateKeys == FirstSeen(DatesOf(acts))
    requires |data| == |NewestFirst(dateKeys)|
    requires forall i :: 0 <= i < |data| ==> data[i].0 == NewestFirst(dateKeys)[i]
    requires i < |data|
    ensures data[i].0 in DatesOf(acts)
  {
    assert data[i].0 in NewestFirst(dateKeys);
    FirstSeenMembers(DatesOf(acts), data[i].0);
  }

  /** One annotated entry of the data carries its outlet's analyses. */
  lemma AnnotatedEntry(acts: seq<Activity>, comments: map<string, seq<string>>, outlets: seq<string>,
                       sentiments: map<string, PointVenteSentiment>, clients: map<string, ClientSentiment>,
                       analyse: (string, seq<string>) -> Attempt<PointVenteSentiment>,
                       fetch: string -> Attempt<Option<ClientComments>>, d: int, k: nat)
    requires CommentsCollected(acts, comments, outlets)
    requires forall p :: p in sentiments <==> p in outlets
    requires forall p :: p in sentiments ==> sentiments[p] == OutletSentiment(p, comments[p], analyse)
    requires forall p :: p in clients <==> p in outlets
    requires forall p :: p in clients ==> clients[p] == ClientSentimentOf(p, fetch, analyse)
    requires k < |EntriesOn(acts, d)|
    ensures Annotates(AnnotateEntry(EntriesOn(acts, d)[k], sentiments, clients), EntriesOn(acts, d)[k], acts, analyse, fetch)
  {
    var p := EntriesOn(acts, d)[k].pointDeVente;
    EntryOutlet(acts, d, k);
    FirstSeenMembers(PointsVente(acts), p);
  }

  /** The status data of a period's activities: the grouping loop, the two
      analysis loops, the annotation and the sort. */
  method BuildStatus(acts: seq<Activity>,
                     analyse: (string, seq<string>) -> Attempt<PointVenteSentiment>,
                     fetch: string -> Attempt<Option<ClientComments>>)
    returns (data: seq<(int, seq<Annotated>)>)
    ensures Reports(data, acts, analyse, fetch)
  {
    var groups, dateKeys, comments, outlets := GroupByDate(acts);
    var sentiments := SummariseOutlets(outlets, comments, analyse);
    var clients := SummariseClients(outlets, fetch, analyse);
    var annotated := Annotate(groups, dateKeys, sentiments, clients);
    data := SortByNewest(annotated, dateKeys);
    ghost var sorted := NewestFirst(dateKeys);
    forall i, j | 0 <= i < j < |data| ensures data[i].0 > data[j].0 {
      assert data[i].0 == sorted[i] && data[j].0 == sorted[j];
    }
    forall k | 0 <= k < |acts| ensures HasGroup(data, acts[k].fields.date) {
      SortedHasDate(acts, dateKeys, data, k);
    }
    forall i | 0 <= i < |data| ensures data[i].0 in DatesOf(acts) {
      SortedIsDate(acts, dateKeys, data, i);
    }
    forall i | 0 <= i < |data| ensures data[i].1 == annotated[data[i].0] && data[i].0 in groups {
    }
    forall i | 0 <= i < |data| ensures |data[i].1| == |EntriesOn(acts, data[i].0)| {
      assert groups[data[i].0] == EntriesOn(acts, data[i].0);
    }
    forall i, k | 0 <= i < |data| && 0 <= k < |data[i].1|
      ensures Annotates(data[i].1[k], EntriesOn(acts, data[i].0)[k], acts, analyse, fetch)
    {
      var d := data[i].0;
      assert groups[d] == EntriesOn(acts, d);
      assert data[i].1[k] == AnnotateEntry(groups[d][k], sentiments, clients);
      AnnotatedEntry(acts, comments, outlets, sentiments, clients, analyse, fetch, d, k);
    }
  }

  /** The whole status route: the period's checks, then the data. */
  method PointVenteStatus(rows: seq<Activity>, startDate: string, endDate: string,
                          dayOf: string -> Option<int>, formatDay: int -> string,
                          analyse: (string, seq<string>) -> Attempt<PointVenteSentiment>,
                          fetch: string -> Attempt<Option<ClientComments>>)
    returns (r: StatusResponse)
    ensures SelectActivities(rows, startDate, endDate, dayOf, formatDay).Fail? <==> r.StatusError?
    ensures r.StatusError? ==>
              var s := SelectActivities(rows, startDate, endDate, dayOf, formatDay);
              r.status == s.status && r.error == s.error
    ensures r.StatusOk? ==>
              var s := SelectActivities(rows, startDate, endDate, dayOf, formatDay).value;
              && r.count == |s.activities| && r.start == s.start && r.end == s.end
              && Reports(r.data, s.activities, analyse, fetch)
  {
    var selection := SelectActivities(rows, startDate, endDate, dayOf, formatDay);
    if selection.Fail? {
      return StatusError(selection.status, selection.error);
    }
    var data := BuildStatus(selection.value.activities, analyse, fetch);
    r := StatusOk(data, |selection.value.activities|, selection.value.start, selection.value.end);
  }

  /** The date groups of a status response account for every activity
      exactly once. */
  lemma StatusCountsEveryActivity(acts: seq<Activity>)
    ensures Distinct(NewestFirst(FirstSeen(DatesOf(acts))))
    ensures GroupSizes(acts, NewestFirst(FirstSeen(DatesOf(acts)))) == |acts|
  {
    var keys := NewestFirst(FirstSeen(DatesOf(acts)));
    forall k | 0 <= k < |acts| ensures acts[k].fields.date in keys {
      assert DatesOf(acts)[k] == acts[k].fields.date;
      FirstSeenMembers(DatesOf(acts), acts[k].fields.date);
    }
    EveryActivityGroupedOnce(acts, keys);
  }

  /** The response of `GET /point-vente/sentiment`. */
  datatype SentimentResponse = SentimentOk(analysis: DayAnalysis) | SentimentError(status: nat, error: string)

  function Entries(acts: seq<Activity>): (r: seq<Entry>)
    ensures |r| == |acts| && forall k :: 0 <= k < |acts| ==> r[k] == EntryOf(acts[k])
  {
    seq(|acts|, k requires 0 <= k < |acts| => EntryOf(acts[k]))
  }

  /** `GET /point-vente/sentiment`: the latest day when no date is given
      (404 on an empty table), otherwise a valid date (400); then 404 when
      the day has no activity, else the day analysis. */
  function DaySentiment(rows: seq<Activity>, date: string, dayOf: string -> Option<int>, formatDay: int -> string,
                        ask: (string, seq<Entry>) -> Attempt<string>, parse: string -> Attempt<DayReply>,
                        nowIso: string): (r: SentimentResponse)
    ensures date == "" ==> (rows == [] <==> r == SentimentError(404, NO_ACTIVITY))
    ensures date == "" && rows != [] ==>
              r == SentimentOk(AnalyzeDay(Entries(Select(rows, OneDay(Latest(rows)))), formatDay(Latest(rows)), ask, parse, nowIso))
    ensures date != "" && !IsValidDate(date, dayOf) ==> r == SentimentError(400, BAD_DATE)
    ensures date != "" && IsValidDate(date, dayOf) ==>
              var acts := Select(rows, OneDay(dayOf(date).value));
              r == if acts == [] then SentimentError(404, NO_ACTIVITY_ON + date)
                   else SentimentOk(AnalyzeDay(Entries(acts), date, ask, parse, nowIso))
  {
    if date == "" then
      if rows == [] then SentimentError(404, NO_ACTIVITY)
      else
        var latest := Latest(rows);
        LatestDayNotEmpty(rows);
        DayReport(Select(rows, OneDay(latest)), formatDay(latest), ask, parse, nowIso)
    else if !IsValidDate(date, dayOf) then SentimentError(400, BAD_DATE)
    else DayReport(Select(rows, OneDay(dayOf(date).value)), date, ask, parse, nowIso)
  }

  function DayReport(acts: seq<Activity>, target: string, ask: (string, seq<Entry>) -> Attempt<string>,
                     parse: string -> Attempt<DayReply>, nowIso: string): (r: SentimentResponse)
    ensures acts == [] <==> r == SentimentError(404, NO_ACTIVITY_ON + target)
    ensures acts != [] ==> r.SentimentOk? && r.analysis.totalPointsVente == Some(|acts|) && r.analysis.date == target
  {
    if acts == [] then SentimentError(404, NO_ACTIVITY_ON + target)
    else SentimentOk(AnalyzeDay(Entries(acts), target, ask, parse, nowIso))
  }
}
