# pv_mata: outlet activities and customer feedback

pv_mata is a small Express and PostgreSQL application. Outlet managers use it to record the daily activity of each point of sale (`point_vente`): who was in charge, a sales score, complaints, missing products, delivery and general comments. They also record customer orders and feedback for each activity: phone, name, amount, new or returning client, how the client heard of the outlet, and three notes out of 10.

Users log in with a JWT and hold one of the roles ADMIN, MANAGER or another role. An external, API-key protected endpoint reports each outlet's status over a period. Another reports a sentiment analysis of a day, produced by a language model.

This project models the deterministic rules around the SQL and HTTP calls:

- the parameterised `WHERE 1=1 AND ... $k` builders of the two models, as clause tokens with a parallel parameter list, and the tables as in-memory sequences of rows changed by `create`, `update` and `delete`;
- the decisions of the middlewares and routes: 400/401/403/404, pass or accept, in the order the code checks them;
- the shaping done by the external API: date checks, the latest-day default, grouping by date, newest first, the comment collection and the per-outlet fallback;
- the comment pre-processing of the sentiment service and its guard and fallback answers;
- the pure helpers and small state of the three browser pages.

One Dafny module stands for each source file:

- `Common`: JavaScript string, number and query-string helpers;
- `Query`: the clause tokens and their meaning on a row;
- `CustomerModel` and `ActivityModel`;
- `CustomerRoutes`, `ActivityRoutes` and `ExternalApi`;
- `RoleCheck`, `ApiKeyAuth`, `AuthMiddleware` and `AuthRoutes`;
- `Sentiment`;
- `AllCustomersPage`, `CustomersPage` and `AppPage`.

Representation choices:

- Dates are integer day numbers. Timestamps are integer milliseconds, with the current time passed in.
- A text filter or field that is empty stands for an absent or falsy one.
- The JavaScript `Date` parser, `formatDate`, the language model, `JSON.parse`, `jwt`, `bcrypt` and `Customer.getLatestClientCommentsByPointVente` are function parameters (oracles). An oracle that may throw returns `Attempt`.

Where the code and its documentation disagree, the model follows the code:

- `PUT /api/activities/:id` restricts only MANAGER. Any other role passes the permission check (`ActivityRoutes.OnlyManagerRestricted`), while the page hides the edit button from that role (public/js/app.js:149, `AppPage.EditButtonVersusRoute`).
- `PUT /api/customers/:id` has no ownership or age check and does not check the client type.
- The field `exists` of the phone lookup is named `found` in the model, because `exists` is a Dafny keyword.

## Model

| member | source | states |
|---|---|---|
| RoleCheck.CheckRole | middleware/roleCheck.js:1-15 | passes exactly when there is a user with a non-empty role among the allowed ones; 401 "non authentifié" without a user or role, 403 for a role not allowed |
| RoleCheck.CheckRoleMonotone | middleware/roleCheck.js:1-15 | allowing more roles keeps every passing request passing and leaves every 401 unchanged |
| ApiKeyAuth.AuthenticateApiKey | middleware/apiKeyAuth.js:3-21 | passes exactly when a non-empty `x-api-key` equals the configured key (an unset key refuses all); a missing or empty header gives 401 "manquante", any other mismatch 401 "invalide" |
| AuthMiddleware.TokenFound | middleware/auth.js:5-6 | a header made of a space-free scheme word, one space and a non-empty space-free token, ending there or followed by a space, always gives that token |
| AuthMiddleware.ExtractToken | middleware/auth.js:5-6 | a token found is non-empty, has no space and sits right after the first space of the header, up to the next space or the end; a header without a space gives none |
| AuthMiddleware.SecondPart | middleware/auth.js:6 | the second field of `split(' ')` is the text between the first space and the next one |
| AuthMiddleware.JoinShape | middleware/auth.js:6 | layout of a split header: first part, a space, second part, then the rest after another space |
| AuthMiddleware.SchemeIgnored | middleware/auth.js:6 | the word before the first space is never checked: any two scheme words give the same token |
| AuthMiddleware.AuthenticateToken | middleware/auth.js:4-21 | no token gives 401, a token `jwt.verify` refuses gives 403, otherwise the request carries exactly the decoded user |
| AuthRoutes.Login | routes/auth.js:8-53 | missing name or password gives 400 before any lookup; an unknown user and a wrong password give the same 401; success returns exactly id, username and role, and the token signed over them |
| AuthRoutes.PasswordCheckedOnlyWhenFound | routes/auth.js:18-27 | when the lookup finds no user, the password checker cannot change the answer |
| Common.TrimStart | services/sentimentAnalysis.js:122 | the result is a suffix of the text, everything cut off is ECMAScript whitespace, and it does not start with whitespace |
| Common.TrimEnd | services/sentimentAnalysis.js:122 | the result is a prefix of the text, everything cut off is whitespace, and it does not end with whitespace |
| Common.TrimEmptyIff | services/sentimentAnalysis.js:122 | `trim()` gives the empty text exactly when the text is all whitespace |
| Common.ToLower | services/sentimentAnalysis.js:122 | same length, and every character lower-cased one by one |
| Common.BelowIrreflexive | models/activity.js:138-158 | the text order used for sorted distinct values is irreflexive |
| Common.BelowTransitive | models/activity.js:138-158 | that order is transitive |
| Common.BelowTotal | models/activity.js:138-158 | any two different texts are ordered one way or the other |
| Common.Split | middleware/auth.js:6 | `split` on one character: at least one part, no part holds the separator, and joining the parts back gives the text |
| Common.SplitAfterPrefix | middleware/auth.js:6 | a separator-free prefix followed by the separator is the first part |
| Common.SplitWithoutSeparator | middleware/auth.js:6 | a text without the separator splits into itself alone |
| Common.SplitJoin | services/sentimentAnalysis.js:134 | splitting undoes joining when no part holds the separator |
| Common.DigitChar | public/js/app.js:24-25 | the character is a decimal digit whose value is the number |
| Common.Decimal | public/js/app.js:24-29 | `String(n)` is a non-empty run of digits |
| Common.IntText | public/js/allCustomers.js:84-85 | the text of an integer is non-empty and is the decimal digits for a natural number |
| Common.DecimalRoundTrip | public/js/app.js:24-29 | reading back the decimal digits of a number gives the number |
| Common.Pad2 | public/js/app.js:24-25 | `padStart(2, '0')` of a number below 100: two digits that read back as the number |
| Common.PresentParams | public/js/allCustomers.js:110-126 | appending only truthy values: never more pairs than given, and no empty value sent |
| Common.PresentParamsDelivered | public/js/allCustomers.js:110-126 | under distinct names the server's `get` reads back exactly the value of each pair, an empty value as absent |
| Common.PresentParamsEmpty | public/js/app.js:127-132 | no pair is sent exactly when every value is empty |
| Common.NameAbsent | public/js/allCustomers.js:110-126 | a name no pair carries reads as absent |
| Common.PresentParamsSnoc | public/js/allCustomers.js:119-124 | one more conditional append adds the pair exactly when its value is non-empty |
| Common.AppendIfPresent | public/js/allCustomers.js:119-124 | one `if (value) params.append(name, value)` step extends the pairs sent so far by the pairs skipping empty values |
| Common.QueryString | public/js/app.js:132 | the query text is empty exactly when no pair is sent |
| Sentiment.IsValidCommentAsWritten | services/sentimentAnalysis.js:121-123 | the comment filter's test, with `trim() !== ''`, is truthy, not `neant` in any case, and not blank |
| Sentiment.Filter | services/sentimentAnalysis.js:121-123 | `filter` keeps a subsequence whose every element passes the test |
| Sentiment.FilterMembers | services/sentimentAnalysis.js:121-123 | an element is kept exactly when it is in the input and passes |
| Sentiment.FilterKeepsAll | services/sentimentAnalysis.js:121-123 | a list whose every element passes comes out whole |
| Sentiment.FilterAppend | services/sentimentAnalysis.js:121-123 | filtering a concatenation filters each part |
| Sentiment.ValidComments | services/sentimentAnalysis.js:121-123 | the comments kept are exactly the valid ones of the input, and no more than the input |
| Sentiment.VisibleIsValid | services/sentimentAnalysis.js:121-123 | a comment starting with a visible character other than `n`/`N` is kept |
| Sentiment.Numbered | services/sentimentAnalysis.js:134 | one line `i. c` per comment, numbered consecutively in input order |
| Sentiment.CommentsTextLines | services/sentimentAnalysis.js:134 | for single-line comments the prompt list splits back into one numbered line per comment, from 1 |
| Sentiment.Search | services/sentimentAnalysis.js:141 | the first occurrence of the pattern at or after a position, or proof there is none |
| Sentiment.ReplaceFirst | services/sentimentAnalysis.js:141 | a text without the pattern is unchanged |
| Sentiment.ClientNameRoundTrip | services/sentimentAnalysis.js:137-141 | the name `<outlet> - Commentaires clients` is in client mode and shows as the outlet's own name |
| Sentiment.NoSelfOverlap | services/sentimentAnalysis.js:141 | the client suffix cannot overlap a shifted copy of itself |
| Sentiment.FenceAtIsStartsWith | services/sentimentAnalysis.js:198 | the fence test is `startsWith('```')` |
| Sentiment.StripOpeners | services/sentimentAnalysis.js:199 | the opener removal never lengthens the text |
| Sentiment.StripFences | services/sentimentAnalysis.js:199 | the fence removal never lengthens the text |
| Sentiment.ExtractJson | services/sentimentAnalysis.js:196-200 | a reply that does not start with a fence is parsed as it is |
| Sentiment.OpenersSkipPlainPrefix | services/sentimentAnalysis.js:199 | backtick-free text in front passes the opener removal unchanged |
| Sentiment.FencesSkipPlainPrefix | services/sentimentAnalysis.js:199 | backtick-free text in front passes the fence removal unchanged |
| Sentiment.ClosingFence | services/sentimentAnalysis.js:199 | a lone closing fence is kept by the first removal and dropped by the second |
| Sentiment.StripJsonFence | services/sentimentAnalysis.js:199 | a body in a ```` ```json ```` fence comes out as the body and its newline |
| Sentiment.JsonFencedReply | services/sentimentAnalysis.js:196-200 | a reply fenced with ```` ```json ```` yields the trimmed body |
| Sentiment.BareFenceKeptByOpeners | services/sentimentAnalysis.js:199 | a fence followed by a newline is left by the opener removal |
| Sentiment.StripBareFence | services/sentimentAnalysis.js:199 | a body in a bare fence comes out as the body and its newline |
| Sentiment.BareFencedReply | services/sentimentAnalysis.js:196-200 | a reply in a bare fence yields the trimmed body |
| Sentiment.PromptFor | services/sentimentAnalysis.js:134-175 | client mode exactly when the name contains `Commentaires clients`; the prompt carries the numbered list; a manager prompt names the outlet as given |
| Sentiment.AnalyzePointVente | services/sentimentAnalysis.js:110-223 | no comments or no valid comment gives the fixed neutral answers; analysed exactly when there is a valid comment and both the call and the parse succeed, and then the record carries the parsed sentiment, score, summary, concerns and positive aspects with the count of valid comments; a throw of the call or of the parse gives the failure record with that throw's message |
| Sentiment.OnlyValidCommentsMatter | services/sentimentAnalysis.js:120-123 | two non-empty comment lists with the same valid comments get the same analysis |
| Sentiment.AnalyzeDay | services/sentimentAnalysis.js:13-102 | always the requested date; no activities gives the fixed neutral answer without a count; otherwise the count of activities; when call and parse succeed, the parsed sentiment, score, summary, key points, issues and recommendations with the timestamp; a throw of the call or of the parse gives the fallback record with that throw's message |
| Query.LikeWrapped | models/customer.js:99-109 | `col ILIKE '%v%'` holds exactly when the value contains `v`, ignoring letter case |
| Query.Given | models/customer.js:96-133 | the filters a builder tests and finds truthy, in order; none exactly when every filter is absent |
| Query.EmitShape | models/customer.js:96-133 | the k-th emitted piece is the k-th given filter's, numbered `$k+1`, and binds that filter's value as the k-th parameter |
| Query.PassesAllSubset | models/customer.js:271-323 | a row passing every filter of a list passes every filter of any sub-list |
| Query.EmitMeaning | models/customer.js:96-133 | a row satisfies the emitted `WHERE 1=1 AND ...` exactly when it satisfies every given filter |
| Query.PassesAllSnoc | models/customer.js:96-133 | passing one more filter is passing the old ones and the new one |
| Query.HoldsSnoc | models/customer.js:96-133 | a new piece numbered after the existing parameters adds exactly its own condition |
| Query.AppendIf | models/customer.js:99-103 | one `if (x) { query += ...; params.push(x); paramIndex++ }` step extends the pieces and parameters to those of one more filter, with `paramIndex` one past the last parameter |
| Query.HoldsExtend | models/customer.js:141-145 | binding `limit` and `offset` after the last placeholder does not change which rows the fragment selects, so the count and the page agree |
| ActivityModel.FindAll | models/activity.js:37-61 | the listing selects with the date bounds and the outlet, in that order, and sorts newest date then newest creation first, without paging |
| ActivityModel.ListQueryMeaning | models/activity.js:37-61 | the listing returns exactly the rows within the given inclusive bounds and at the given outlet; no parameter is bound exactly when no filter is given, and then every row is returned |
| ActivityModel.Insert | models/activity.js:138-158 | inserting into a strictly ascending list keeps it strictly ascending and adds exactly the new value |
| ActivityModel.DistinctSorted | models/activity.js:141 | `SELECT DISTINCT ... ORDER BY`: strictly ascending, holding exactly the values given |
| ActivityModel.PointsVente | models/activity.js:143 | the outlet of every row, in row order |
| ActivityModel.Responsables | models/activity.js:154 | the owner name of every row, in row order |
| ActivityModel.IndexIn | models/activity.js:77-82 | the position of a row with the id, or none exactly when no row has it |
| ActivityModel.ActivityTable.constructor | models/activity.js:18-26 | an empty table whose id sequence, used by the insert, starts at 1 |
| ActivityModel.ActivityTable.FindById | models/activity.js:77-91 | the row with this id, or none exactly when no row has it |
| ActivityModel.ActivityTable.Create | models/activity.js:4-35 | appends one row with the next id, the given columns, author and creation time; ids stay unique |
| ActivityModel.ActivityTable.Update | models/activity.js:93-124 | rewrites the eight columns of the row with the id only, keeps id, author and creation time and every other row, returns the new row or none |
| ActivityModel.ActivityTable.Delete | models/activity.js:126-136 | removes exactly the row with the id and returns it, the other rows keeping their order; none and no change when absent |
| ActivityModel.ActivityTable.GetDistinctPointsVente | models/activity.js:138-147 | every outlet present in the table once, in ascending order, and nothing else |
| ActivityModel.ActivityTable.GetDistinctResponsables | models/activity.js:149-158 | every owner name present in the table once, in ascending order, and nothing else |
| CustomerModel.FindAll | models/customer.js:43-73 | equality filters on activity, date, outlet and type, in that order, newest creation first, without paging |
| CustomerModel.ListQueryMeaning | models/customer.js:43-73 | `findAll` returns exactly the rows equal to every given filter, and binds nothing when no filter is given |
| CustomerModel.ListFiltersMeaning | models/customer.js:49-71 | passing the four listing filters is matching activity, date, outlet and type where given |
| CustomerModel.FindAllWithPagination | models/customer.js:89-145 | the count and the page share one fragment and its parameters; the page alone sorts by date then creation, newest first, and binds limit and offset to the two placeholders after the filters |
| CustomerModel.PageQueryMeaning | models/customer.js:89-137 | the page and its count select exactly the rows matching the phone and name substrings, the outlet, the type and the inclusive date bounds |
| CustomerModel.PageFiltersMeaning | models/customer.js:99-133 | passing the six page filters is matching each given one, ILIKE as case-insensitive substring |
| CustomerModel.StatsQuery | models/customer.js:271-323 | the statistics WHERE is emitted from the eight filters in the order the code checks them, with no ordering and no paging |
| CustomerModel.StatsQueryMeaning | models/customer.js:271-339 | the statistics aggregate exactly the rows matching every filter of both listings |
| CustomerModel.StatsFiltersMeaning | models/customer.js:271-323 | the eight statistics filters are the listing filters and the page filters together |
| CustomerModel.CountType | models/customer.js:330-331 | the count of rows of one type is at most the number of rows, and positive exactly when some row has that type |
| CustomerModel.SumAmount | models/customer.js:329 | no sum (SQL NULL) exactly on no rows |
| CustomerModel.AmountConcat | models/customer.js:329 | the total amount of two runs of rows is the sum of their totals, so the summation order does not matter |
| CustomerModel.CountTypesDisjoint | models/customer.js:330-331 | new and returning counts together never exceed the total |
| CustomerModel.RoundPercent | models/customer.js:347-352 | `Math.round(n / total * 100)`: the nearest whole percentage, halves up, 0 when total is 0, between 0 and 100 |
| CustomerModel.StatsOf | models/customer.js:341-352 | the total is the row count; the new and returning counts are the rows of each type; the amount is the sum of the amounts, 0 on no rows; new plus returning at most the total; both rates within 0-100 and the nearest percentage; all zero on no rows |
| CustomerModel.CountPhone | models/customer.js:191-196 | the count is positive exactly when some row has this exact phone |
| CustomerModel.Earliest | models/customer.js:202-208 | the row picked has this phone and a comment, and no such row was created earlier; none exactly when no such row exists |
| CustomerModel.CustomerTable.constructor | models/customer.js:22-32 | an empty table whose id sequence, used by the insert, starts at 1 |
| CustomerModel.CustomerTable.IndexOf | models/customer.js:161-166 | the position of the row with this id, or none exactly when no row has it |
| CustomerModel.CustomerTable.FindById | models/customer.js:161-175 | the row with this id, or none exactly when no row has it |
| CustomerModel.CustomerTable.Create | models/customer.js:4-41 | appends one row with the next id, the given columns, activity, author and creation time; ids stay unique |
| CustomerModel.CustomerTable.Update | models/customer.js:221-257 | rewrites the eleven columns of the row with the id only, keeps the other columns and rows, returns the new row or none |
| CustomerModel.CustomerTable.Delete | models/customer.js:259-269 | removes exactly the row with the id and returns it, the other rows keeping their order; none and no change when absent |
| CustomerModel.CustomerTable.CheckPhoneExists | models/customer.js:189-215 | the count of rows with this exact phone; found exactly when positive; the comment is the earliest non-null one among them, none when not found or none is set |
| CustomerModel.IndexIn | models/customer.js:161-166 | the position of a row with the id, or none exactly when no row has it |
| CustomerRoutes.AllFilters | routes/customers.js:10-18 | the filter object holds each non-empty parameter under its key, `nom` under `nom_client`, and no activity or day |
| CustomerRoutes.ListFiltersOf | routes/customers.js:43-49 | `GET /` passes exactly activity, day, outlet and type |
| CustomerRoutes.StatsFiltersOf | routes/customers.js:62-67 | `GET /stats` passes exactly activity, day and outlet, and no type |
| CustomerRoutes.Paging | routes/customers.js:10-21 | the limit is the size sent, 50 when absent, and the offset is (page - 1) times the limit, page 1 when absent |
| CustomerRoutes.PagesAreAdjacent | routes/customers.js:20-21 | page n+1 starts where page n ends, and page 1 starts at row 0 |
| CustomerRoutes.TotalPages | routes/customers.js:29 | `Math.ceil(total / limit)`: none exactly for a limit of 0; for a positive limit the fewest pages holding every row, 0 exactly when there is no row |
| CustomerRoutes.PagesCoverRows | routes/customers.js:29 | every page from 1 to the page count starts before the last row |
| CustomerRoutes.AllPageInfo | routes/customers.js:8-37 | a negative offset or limit ends in the 500; otherwise the matching row count, the page count, the size and the current page |
| CustomerRoutes.CheckPhoneGuard | routes/customers.js:80-86 | an empty phone is refused with 400 before the lookup, any other passes |
| CustomerRoutes.NoteError | routes/customers.js:144-152 | no error exactly when the three notes are absent or within 0-10; otherwise the message of the first note out of range, in the order quality, price, service |
| CustomerRoutes.StoredNote | routes/customers.js:164-166 | `note || null`: a present non-zero note is kept, 0 and absent become null |
| CustomerRoutes.StoredText | routes/customers.js:162-163 | `text || null`: null exactly for the empty text, otherwise the text |
| CustomerRoutes.CreateCustomer | routes/customers.js:112-176 | accepted exactly with all six required fields, a type `Nouveau` or `Récurrent` and notes in range; 400 for missing fields, then 400 for the type, then a 500 whose message ends with the first note's range error; the row carries the author, a falsy activity as null and all eleven stored columns of the body |
| CustomerRoutes.CreatedRowIsValid | routes/customers.js:130-152 | a created row has one of the two types and its notes within 0-10 |
| CustomerRoutes.UpdateCustomer | routes/customers.js:179-247 | 404 for a missing row, then 403 unless ADMIN or MANAGER, then 400 for missing fields, then a 500 whose message ends with the first note's range error; accepted rows get the eleven stored columns |
| CustomerRoutes.UpdateIgnoresOwnerAndAge | routes/customers.js:196-214 | the author and age of the row never change the answer of an update |
| CustomerRoutes.DeleteCustomer | routes/customers.js:250-285 | 404 for a missing row; passes exactly for ADMIN, or MANAGER on a row at most 48 hours old; every other refusal is 403 |
| CustomerRoutes.GetCustomer | routes/customers.js:95-109 | the row when it exists, otherwise 404 |
| ActivityRoutes.MatchesScore | routes/activities.js:10-11 | the regular-expression test holds exactly for texts of the language of `^([1-9]|10)([,.][0-9]+)?$` |
| ActivityRoutes.ValidateNote | routes/activities.js:8-12 | an empty score is valid, any other exactly when it is in that language |
| ActivityRoutes.ScoreExamples | routes/activities.js:8-12 | "8,5", "8.5", "10" and "10,9" pass; "0.5", "0", "11" and "8." fail |
| ActivityRoutes.ListFiltersOf | routes/activities.js:39-46 | `GET /` passes exactly the given bounds and outlet |
| ActivityRoutes.FieldsOf | routes/activities.js:102-110 | the score is null exactly when empty, otherwise the text sent |
| ActivityRoutes.CreateActivity | routes/activities.js:75-120 | accepted exactly with date, outlet and owner and a valid score; 400 with the fields message first, then the score message; the row records the author and the stored fields |
| ActivityRoutes.EditPermission | routes/activities.js:143-163 | passes exactly for a role other than MANAGER, or a MANAGER on their own activity at most 24 hours old; a MANAGER on another's activity gets the ownership 403 |
| ActivityRoutes.UpdateActivity | routes/activities.js:123-196 | 404 for a missing row, then the permission's 403, then 400 for missing fields, then 400 for a bad score; accepted exactly when all pass, with the stored fields |
| ActivityRoutes.OnlyManagerRestricted | routes/activities.js:143-163 | for any role other than MANAGER a valid update is accepted whatever the row's author and age |
| ActivityRoutes.DeleteActivity | routes/activities.js:199-214 | passes exactly for an ADMIN on an existing row; the role check answers first, even for a missing row, then 404 |
| ActivityRoutes.GetActivity | routes/activities.js:58-72 | the row when it exists, otherwise 404 |
| ExternalApi.DateTextRoundTrip | routes/external.js:9-24 | a date `formatDate` writes for a four-digit year passes the `YYYY-MM-DD` test and reads back as its year, month and day |
| ExternalApi.StatusWindow | routes/external.js:34-99 | no dates means the latest day; otherwise, in order, 400 when only one date is given, 400 for a bad start, 400 for a bad end, 400 when start is after end, 400 beyond 90 days, else the inclusive range of the two days |
| ExternalApi.Latest | routes/external.js:46-49 | the `reduce` gives a date no activity exceeds and that some activity has |
| ExternalApi.Select | models/activity.js:37-61 | `findAll` returns only rows matching the filters, never more than the table |
| ExternalApi.SelectMembers | models/activity.js:37-61 | a row is returned exactly when it is in the table and matches the filters |
| ExternalApi.LatestDayNotEmpty | routes/external.js:46-56 | the latest day always has at least one activity |
| ExternalApi.SelectActivities | routes/external.js:33-109 | the window's errors are the route's answer; without dates an empty table gives 404 and otherwise the latest day's activities, never empty, echoed as start and end; a range selects its activities and echoes the dates sent |
| ExternalApi.OrNeant | routes/external.js:129-132 | `text or neant` is never empty: the text when non-empty, `neant` otherwise |
| ExternalApi.ActivityComments | routes/external.js:141-149 | an activity contributes at most three comments |
| ExternalApi.LabelledIsValid | routes/external.js:141-149 | a comment starting with a capital label other than `N` always passes the service's filter |
| ExternalApi.ActivityCommentsValid | routes/external.js:141-149 | every comment the route collects passes the service's filter |
| ExternalApi.ActivityCommentsChosen | routes/external.js:141-149 | each text field is reported, with its label, exactly when it is a valid comment, and a complaint comes first |
| ExternalApi.FirstSeen | routes/external.js:112-123 | the object's keys, like the set, hold no value twice |
| ExternalApi.FirstSeenMembers | routes/external.js:112-123 | a value is a key exactly when some activity has it |
| ExternalApi.AbsentIsEmpty | routes/external.js:116-150 | a day without activity has no entries, an outlet without activity no comments |
| ExternalApi.OutletCommentsAllValid | routes/external.js:136-156 | the service keeps every comment the route collects, so it analyses the whole list |
| ExternalApi.CollectComments | routes/external.js:136-149 | the three conditional `push`es append the activity's comments to its outlet's list and touch no other outlet |
| ExternalApi.AddEntry | routes/external.js:117-133 | the entry goes to the end of its date's group, created on the date's first activity, with the date appended to the keys |
| ExternalApi.GroupByDate | routes/external.js:112-150 | every date's group holds the entries of that date's activities in order; the keys are the dates in order of first appearance; every outlet's list holds its activities' comments in order; the outlets are those of the activities |
| ExternalApi.EveryActivityGroupedOnce | routes/external.js:116-133 | over distinct date keys covering every activity, the groups hold exactly one entry per activity |
| ExternalApi.EntryInItsGroup | routes/external.js:117-133 | each activity's entry is in the group of its date |
| ExternalApi.InsertDesc | routes/external.js:222-223 | inserting into a strictly descending list keeps it strictly descending and adds exactly the new date |
| ExternalApi.NewestFirst | routes/external.js:221-226 | the keys newest first, each once, nothing added or lost |
| ExternalApi.OutletSentiment | routes/external.js:154-166 | the outlet's analysis when it returns, the fixed `unknown` record when it throws |
| ExternalApi.ClientSentimentOf | routes/external.js:170-201 | no client data gives `Pas de données`; a throw gives the fixed record without a date; otherwise the analysis of the comments with the latest date |
| ExternalApi.SummariseOutlets | routes/external.js:153-166 | exactly one activity analysis per outlet with comments collected |
| ExternalApi.SummariseClients | routes/external.js:169-201 | exactly one client analysis per outlet of the activities |
| ExternalApi.Annotate | routes/external.js:204-218 | every entry of every group, in place and in order, gets its outlet's two analyses when they exist |
| ExternalApi.SortByNewest | routes/external.js:220-226 | the groups in newest-first order of their dates, each with its annotated entries |
| ExternalApi.EntryOutlet | routes/external.js:117-126 | each entry's outlet is the outlet of some activity |
| ExternalApi.BuildStatus | routes/external.js:111-226 | every activity date has its group, every group is an activity date, newest first, and each entry is its activity's, carrying its outlet's two analyses |
| ExternalApi.PointVenteStatus | routes/external.js:27-239 | an error exactly when the selection fails, with its status and message; otherwise the status data of the selected activities, their count and the period |
| ExternalApi.StatusCountsEveryActivity | routes/external.js:116-232 | the groups of the response account for every activity exactly once, so their sizes add up to `count` |
| ExternalApi.Entries | routes/external.js:298-306 | one entry per activity, in order |
| ExternalApi.DaySentiment | routes/external.js:251-314 | without a date: 404 on an empty table, else the analysis of the latest day; a bad date gives 400; otherwise 404 when the day has no activity, else the day's analysis |
| ExternalApi.DayReport | routes/external.js:284-314 | 404 with the date in the message exactly when the day has no activity; otherwise an analysis of that date counting every activity |
| CustomersPage.EditButtonMatchesRoute | public/js/customers.js:285 | the edit button is shown exactly to the users the update route lets past its permission check |
| CustomersPage.DeleteButtonMatchesRoute | public/js/customers.js:289-295 | the delete button is shown exactly when the delete route accepts the row: ADMIN, or MANAGER within 48 hours |
| CustomersPage.NoteClass | public/js/customers.js:631-638 | no badge exactly for an absent or zero note |
| CustomersPage.NoteClassMonotone | public/js/customers.js:631-638 | a better note never gets a lower badge; `excellent` from 8, `poor` below 4 |
| CustomersPage.CountLabelPlural | public/js/customers.js:501 | "commande" takes an `s` exactly for more than one order |
| CustomersPage.CustomersModule.constructor | public/js/customers.js:2-8 | no activity, day, outlet or customer, no rows, not in edit mode; the form's type is `Nouveau` |
| CustomersPage.CustomersModule.OpenCustomersModal | public/js/customers.js:214-218 | remembers the activity, day and outlet and changes nothing else |
| CustomersPage.CustomersModule.OpenFormModal | public/js/customers.js:429-470 | edit mode exactly for a given customer, whose type and "comment connu" fill the form; otherwise the reset form with type `Nouveau` |
| CustomersPage.CustomersModule.CloseCustomersModal | public/js/customers.js:605-611 | forgets the activity, day, outlet and rows, and nothing else |
| CustomersPage.CustomersModule.CloseFormModal | public/js/customers.js:614-619 | leaves edit mode with no customer, the form reset |
| CustomersPage.CustomersModule.CheckPhoneExists | public/js/customers.js:485-518 | nothing changes for a phone under 8 characters or a failed request; otherwise the type and status follow the lookup and a known "comment connu" replaces the choice |
| CustomersPage.CustomersModule.Submission | public/js/customers.js:522-543 | `PUT` on the edited customer's URL exactly in edit mode, else `POST`; the current activity is sent; each comment is `null` exactly when empty |
| CustomersPage.CommentsSurviveTheRoute | public/js/customers.js:534-535 | sending an empty comment as `null` makes the route store what it would have stored for the text |
| CustomersPage.LookupTypeAccepted | public/js/customers.js:500-518 | a body carrying the type a lookup sets, with the required fields, never gets the create route's type 400, and with notes in range is created with that type |
| AllCustomersPage.SlotsButtons | public/js/allCustomers.js:214-221 | the buttons are exactly the first, the last and the pages within two of the current one, in increasing order, only the current one active |
| AllCustomersPage.SlotsEllipsis | public/js/allCustomers.js:218-219 | an ellipsis is shown exactly when a page three away from the current one is hidden |
| AllCustomersPage.Trimmed | public/js/allCustomers.js:112-117 | only the phone and the name are trimmed |
| AllCustomersPage.FilterPairsInOrder | public/js/allCustomers.js:119-124 | the filters are appended in the order phone, name, outlet, type, start, end |
| AllCustomersPage.FiltersDelivered | public/js/allCustomers.js:109-127 | the route reads back the trimmed phone and name, the outlet and the type, an empty one as absent |
| AllCustomersPage.FilterNamesDistinct | public/js/allCustomers.js:119-124 | the six filters go under six different names |
| AllCustomersPage.PageRequestPaging | public/js/allCustomers.js:84-85 | the page and page size sent give the route offset `(page-1)*50` and limit 50 |
| AllCustomersPage.NoteClass | public/js/allCustomers.js:423-430 | no badge exactly for an absent or zero note |
| AllCustomersPage.NoteClassBands | public/js/allCustomers.js:423-430 | each badge holds exactly on its band: from 8, from 6, from 4, below 4 |
| AllCustomersPage.AllCustomers.constructor | public/js/allCustomers.js:2-6 | page 1 of 1 |
| AllCustomersPage.AllCustomers.Loaded | public/js/allCustomers.js:97 | keeps the page count of the answer and the current page |
| AllCustomersPage.AllCustomers.ChangePage | public/js/allCustomers.js:231-236 | moves to a page from 1 to the page count, ignores any other; the page stays at least 1 |
| AllCustomersPage.AllCustomers.ApplyFilters | public/js/allCustomers.js:262-265 | a new search starts on page 1 |
| AllCustomersPage.AllCustomers.ListingQuery | public/js/allCustomers.js:81-85 | the non-empty filters in order, then the current page and the page size 50 |
| AllCustomersPage.AllCustomers.RenderPagination | public/js/allCustomers.js:199-228 | nothing exactly for at most one page; otherwise the previous button, disabled on page 1, the window of buttons and ellipses, and the next button, disabled on the last page |
| AppPage.DefaultFilterDates | public/js/app.js:21-29 | the two dates share year and month, and the first is the 1st |
| AppPage.DefaultFilterDatesReadBack | public/js/app.js:21-29 | for a four-digit year both dates have the `YYYY-MM-DD` shape and read back as the 1st and today, the month counted from 1 |
| AppPage.ActivitiesUrl | public/js/app.js:126-132 | the truthy filters in the order start, end, outlet, and a `?` only when there is a query |
| AppPage.ActivitiesUrlBare | public/js/app.js:126-132 | the bare path is requested exactly when no filter is set |
| AppPage.ActivityFiltersDelivered | public/js/app.js:127-130 | the route reads back each filter set, an unset one as absent |
| AppPage.DeleteButtonMatchesRoute | public/js/app.js:150 | the delete button is shown exactly to the users the delete route accepts |
| AppPage.EditButtonVersusRoute | public/js/app.js:149 | ADMIN and MANAGER exactly see the edit button; ADMIN passes the route, a MANAGER only on their own rows at most 24 hours old, and every other role passes the route without seeing the button |
| AppPage.DateOnly | public/js/app.js:155 | the part before the first `T`: a prefix of the date with no `T` |
| AppPage.JoinPrefix | public/js/app.js:155 | a joined text starts with its first part |
| AppPage.DateOnlyOfTimestamp | public/js/app.js:155 | a timestamp gives back its `YYYY-MM-DD` day, and a bare day is kept |
| AppPage.Truncate | public/js/app.js:308-312 | `-` for an empty text; the escaped text when it fits; else its first `maxLength` characters and `...` |
| AppPage.TruncateBounds | public/js/app.js:308-312 | a cell is never longer than the limit plus three, never empty for a non-empty escape, and starts with the escaped text |
| AllCustomersPage.RowButtonsMatchRoutes | public/js/allCustomers.js:146-154 | the table of all customers shows the edit button exactly to the users the update route lets past its permission check, and the delete button exactly when the delete route accepts the row |

## Left out

- SQL execution, the pg pool and row ordering inside the engine. Tables are sequences and queries are clause tokens whose meaning is stated on rows. `ORDER BY` is recorded as part of the query, and the rows a query returns are kept in table order.
- The `toFixed(1)` averages of `getStats` and the page's `updateNoteGlobale`: these are floating-point display. `note_globale` is computed by the database, which is not part of this model.
- PostgreSQL returning `numeric` columns as text. A note is modelled as a number, so its falsiness is that of the number.
- The JavaScript `Date` parser, `formatDate`, `toLocaleDateString` and the host time zone. They are the parameters `dayOf` and `formatDay`, and day validity such as `2025-02-30` is whatever `dayOf` says. The page clock is passed in as calendar fields.
- Negative years and years outside four digits in `setDefaultFilterDates`: the date texts are stated for any natural year and read back for four-digit years only.
- The language-model request, the prompt wording beyond the comment list and the outlet name, `JSON.parse`, `jwt.sign`/`jwt.verify`, `bcrypt.compare` and the user lookup. These are oracles.
- `Customer.getLatestClientCommentsByPointVente`: it is called by the external route but its definition is not part of this model. It is an oracle that may fail.
- Common.ToLower: Unicode case mapping is not modelled; `toLowerCase` lower-cases ASCII letters only. This is exact for the comparison with `neant`.
- Query.LikeWrapped: ILIKE wildcards inside a search value (`%`, `_`) are not modelled; the value is matched as a plain case-insensitive substring.
- Absent versus `null` versus empty fields in request bodies: all three read as the empty, falsy value.
- The order of keys of JavaScript objects, except the order in which dates are first seen, which the model keeps.
- The generic `500` answers of the `catch` blocks, except two that are modelled: the note range error of the customer routes, and the failure of `GET /api/customers/all` on a negative offset or limit.
- CustomerRoutes.Paging: `parseInt` of the `page` and `pageSize` texts, including the NaN of a non-numeric value, is not modelled; they arrive as optional integers (routes/customers.js:10-21).
- CustomerRoutes.AllPageInfo: for the same reason, a NaN page size and the `null` page count it gives are not modelled (routes/customers.js:20-31).
- CustomerRoutes.CreateCustomer: `parseInt(montant_commande)` is not modelled; the amount arrives as an optional integer, so a text such as `"12abc"` is not covered (routes/customers.js:160).
- CustomerRoutes.UpdateCustomer: the same `parseInt(montant_commande)` is not modelled (routes/customers.js:232).
- CustomerRoutes.NoteError: JavaScript's relational comparison of a non-numeric note (a text compared with 0 and 10) is not modelled; a note arrives as a number or absent.
- ActivityModel.DistinctSorted: `ORDER BY` follows the database collation; the model states plain code-point order (`Common.Below`).
- Common.Below: code-point order, which is not PostgreSQL's locale collation (models/activity.js:141).
- AppPage.Truncate: JavaScript's `length` and `substring` count UTF-16 code units; the model counts Unicode characters, which differ for characters outside the Basic Multilingual Plane.
- CustomerModel.RoundPercent: floating-point `Math.round(count / total * 100)` is modelled as rounding the exact rational, halves up.
- Common.QueryString: URL percent-encoding of query values is not modelled; the query text is the names and values joined by `=` and `&`.
- CustomersPage.CustomersModule.Submission: `parseInt` and `parseFloat` of form values are not modelled; the form values arrive already parsed.
- A `<select>` accepts only the values it lists. The model lets any text reach the "comment connu" field.
- The requests of `loadCustomers` and `loadStats`, notifications and confirmation dialogs, and the DOM and HTML templates. Only the state and values these functions compute are modelled. `escapeHtml` is a parameter of `Truncate`.
- Concurrency between requests, such as two phone checks racing with an insert. The model is sequential.
- The files public/js/auth.js, models/user.js, server.js, sql/init-db.js and config/db.js. They are storage, DOM or start-up plumbing.
