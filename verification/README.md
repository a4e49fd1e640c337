# Static campaigns: a verified model

This project models the static-campaign feature of gophish, a phishing-simulation
platform: the data layer that creates, lists, fetches, summarises, completes and deletes
static campaigns (`models/static_campaign.go`), and the HTTP handlers that call it and
choose a status code and a response (`controllers/api/static_campaign.go`).

The database is replaced by an in-memory store, the class `Models.Store`, whose fields are
the campaign, result, event, mail-log and page tables as sequences of rows, plus the next
auto-increment keys. Its invariant `Valid()` says that campaign rows hold columns only, that
campaign keys are distinct, positive and below the next key, and that event keys are below
theirs. Each query of the source is a selection over these tables:

- `Tables.Filter` is `SELECT ... WHERE`.
- `Tables.FirstIndex` is a `Find` into a single struct.
- `Tables.UpdateWhere` is `UPDATE ... WHERE`.

Times are integers, and 0 stands for Go's zero `time.Time`. The current time is a
parameter `now`.

Store failures are flag-driven. Each operation takes a set `faults` of statements (`Types.Stmt`,
carrying the arguments of their WHERE clause), and a statement fails exactly when it is in
that set. A failure surfaces as `StoreFailure(stmt)`. A `Find` or `Scan` into a single struct
that matches no row fails with `RecordNotFound`. A `Find` into a slice that matches nothing
returns an empty slice and no error.

What the model proves, in the system's own terms:

- Validation reports the first failing check, in order: a missing name, then a missing page
  name, then any non-zero launch date.
- Because any non-zero launch date is refused, every campaign that passes validation is
  stamped InProgress with its launch date equal to its creation date. So no campaign can be
  created Queued through this path.
- Creation stamps the owner, the dates and the status, and resolves the page by name. It
  then stores the row under a fresh key and records a "Campaign Created" event. Every
  failure before the insert leaves the store untouched. A failing event insert is only
  logged. A failing final save is reported even though the row is already stored.
- Statistics count a campaign's results, its submitters and its clickers. Clicks are
  backfilled with submissions, and `Error` is always 0. Only the first count can fail the
  call: a failing second or third count leaves its figure at 0. In every case
  `submitted <= clicked <= total`.
- Every query scoped to an owner returns only rows with both the id and the owner, and fails
  otherwise. The summary list has `Total` equal to the number of summaries. Summaries carry a
  zero launch date, because `launch_date` is not among the selected columns.
- The queued query returns exactly the Queued campaigns due by `t`, of every owner. A
  campaign whose page is gone is shown with the placeholder page "[Deleted]" and does not fail.
- Completion leaves a completed campaign untouched, keeping its completion date. Completing
  twice equals completing once, and no other row changes.
- The delete cascade removes results, then events, then mail logs, then the campaign row.
  It stops at the first failing statement and keeps what it already deleted. Results, events
  and mail logs of other campaigns are unchanged, in order. The campaign row is deleted by its
  primary key, and gorm treats a zero key as blank and then deletes with no condition: deleting
  campaign 0 removes every campaign row of every user. No stored campaign has key 0, so the
  handlers never reach that case.
- Handlers: GET /campaigns answers 200 whatever the data layer reported. POST answers 400
  on a body that does not decode, without touching the store, and 400 with the error's text
  on a refused campaign. A created campaign answers 201 and is always handed to the worker.
  On /campaigns/{id} the owner-scoped fetch with details comes first, and any failure of it
  answers 404, so a DELETE changes the store only for a campaign the caller owns and fetches.
  Every written reply has a 2xx code exactly when its body is not a failure envelope.

## Model

| member | source | states |
|---|---|---|
| Models.Validate | models/static_campaign.go:61-72 | the result is success iff name and page name are non-empty and the launch date is zero; otherwise it is the first failing check, in the order name, page name, launch date |
| Models.Stamp | models/static_campaign.go:257-269 | sets owner, created date `now` and a zero completed date; a zero launch date becomes the created date; the status is InProgress iff launch <= created, else Queued; nothing else changes; a validated campaign always comes out InProgress with launch == created |
| Models.Lookup | models/static_campaign.go:198-204 | the owner-scoped fetch finds a row with both the id and the owner, and finds nothing only when no such row exists |
| Models.MarkComplete | models/static_campaign.go:340-346 | the result is Complete; the completed date is kept if the campaign was already complete, else it is `now`; nothing else changes |
| Models.CompleteIdempotent | models/static_campaign.go:340-351 | completing the table twice, at any two instants, equals completing it once |
| Models.CompleteOnlyMatching | models/static_campaign.go:341-351 | completion keeps the table length, leaves rows of other ids or owners and already-complete rows as they were, and makes each matching row Complete |
| Models.OnlyMatch | models/static_campaign.go:347 | with distinct keys, saving the fetched row is the same as completing every row matching id and owner, and the fetch finds exactly that row |
| Models.StepsDone | models/static_campaign.go:305-326 | the number of cascade statements that ran is the length of the longest fault-free prefix: all before it succeeded, the one at it failed |
| Models.DeleteStepsDone | models/static_campaign.go:301-327 | the cascade runs results, events, mail logs, campaign in that order and stops at the first failing one |
| Models.PurgeKeepsOtherCampaigns | models/static_campaign.go:306-320 | deleting campaign `id`'s results, events and mail logs leaves those of every other campaign equal, in order |
| Models.PurgeLeavesNothing | models/static_campaign.go:306-322 | after the full cascade no result, event or mail log of the campaign remains and the owner-scoped fetch finds nothing |
| Models.LookupAppended | models/static_campaign.go:286 | a row inserted under a key no other row has is exactly what the owner-scoped fetch then finds |
| Models.LoadedRows | models/static_campaign.go:143-148 | campaigns loaded from stored rows keep their columns, each stored row is among them, and each of them comes from one |
| Models.SetStatusKeepsRows | models/static_campaign.go:77 | a status update keeps the table length, every key and the column-only form of every row, so keys stay distinct |
| Models.FirstFailingCount | models/static_campaign.go:165-170 | the summary loop stops at the first campaign, in table order, whose first count fails, and runs through exactly when there is none |
| Models.PurgeCampaignsDistinct | models/static_campaign.go:322 | deleting the campaign row keeps the remaining campaign keys distinct |
| Models.Store.PageByName | models/static_campaign.go:271-281 | a found page belongs to the owner and has the requested name; not-found is reported exactly when no such page exists and the lookup did not fail |
| Models.Store.GetDetails | models/static_campaign.go:87-111 | columns are untouched; results and events are those with the campaign's id; a missing page becomes "[Deleted]" without error; an error arises only from a failing statement |
| Models.Store.GetStaticCampaignStats | models/static_campaign.go:113-134 | only a failing first count fails the call; total counts the campaign's results, submitted its submitters (0 if that count fails), clicked its clickers plus submitted; error is 0; submitted <= clicked <= total |
| Models.Store.LoadDetails | models/static_campaign.go:143-148 | each campaign is replaced by its loaded details, in place; the error returned is the last campaign's, or the query's when there is none |
| Models.Store.GetStaticCampaigns | models/static_campaign.go:136-150 | every campaign returned belongs to the user; without a query failure they are exactly the user's campaigns in table order, each with its details, and the error is that of the last campaign's details (none when the user has no campaign), earlier failures being only logged |
| Models.Store.GetStaticQueuedCampaigns | models/static_campaign.go:233-249 | every campaign returned is Queued and due by `t`; without a query failure they are exactly the due queued campaigns of all users, each with its details, and the error is that of the last campaign's details (none when none is due) |
| Models.Store.GetStaticCampaignSummaries | models/static_campaign.go:152-176 | on success `Total` equals the number of summaries, which are the user's campaigns with their statistics; the error is the scan's if it fails, else that of the first campaign, in table order, whose first count fails, and then the overview is empty; every summary has consistent statistics and a zero launch date, as `launch_date` is not selected |
| Models.Store.GetStaticCampaignSummary | models/static_campaign.go:178-195 | succeeds only for a campaign the user owns, with its statistics; a failing scan or first count is reported as that statement's failure; not-found exactly when the scan ran and no owned row exists; statistics are always consistent and the launch date is zero, as `launch_date` is not selected |
| Models.Store.GetStaticCampaign | models/static_campaign.go:197-207 | succeeds only for a campaign the user owns, with its results and events; fails exactly when the fetch statement fails, no owned row exists, or loading a detail fails; without an owned row it returns the zero campaign |
| Models.Store.GetStaticCampaignResults | models/static_campaign.go:209-231 | succeeds only for an owned campaign, with its id, name, status, the user's results of it and its events; fails when the fetch, the results or the events statement fails |
| Models.Store.UpdateStatus | models/static_campaign.go:74-78 | sets the status of every row with the id, whoever owns it, unless the statement fails; nothing else changes |
| Models.Store.AddEvent | models/static_campaign.go:80-85 | the event gets the campaign's id and the time `now`; on success it is appended under a fresh key, on failure no table changes |
| Models.Store.PostStaticCampaign | models/static_campaign.go:251-298 | the error is the first failing check or statement (page-not-found mapped to `PageNotFound`, a failing event insert not among them); a post that fails validation, the page lookup or the insert leaves the store unchanged, and exactly the others add a row; a validated campaign is stamped InProgress with launch == created == now; a stored one is the stamped campaign on the page found by name under the next key, appended as the table's last row and found by the owner-scoped fetch; the campaign key advances by one, and a "Campaign Created" event is added, advancing the event key, unless that insert failed |
| Models.Store.Insert | models/static_campaign.go:285-297 | a failing insert changes nothing; otherwise the campaign is appended under the next key and is found by the owner-scoped fetch, the campaign key advances by one, its "Campaign Created" event is appended and the event key advances unless that insert fails, and only the final save decides the error |
| Models.Store.DeleteStaticCampaign | models/static_campaign.go:300-327 | results, events, mail logs and the campaign row are deleted in that order up to the first failing statement, whose error is returned; earlier deletions are kept; deleting key 0 removes every campaign row, as gorm adds no condition for a blank key |
| Models.Store.CompleteStaticCampaign | models/static_campaign.go:329-352 | fails with the fetch's error, or not-found for a campaign the user does not own, or the save's error; leaves an already complete campaign untouched; otherwise completes it at `now`; no other row and no other table changes, and on failure nothing changes |
| Api.ListReply | controllers/api/static_campaign.go:19-24 | the campaign list is answered with 200 whatever error the data layer reported |
| Api.CreateReply | controllers/api/static_campaign.go:29-44 | 201 with the campaign iff the body decoded and creation succeeded; otherwise 400 with "Invalid JSON structure" or with the error's text |
| Api.SummariesReply | controllers/api/static_campaign.go:52-58 | 200 with the summaries iff no error, else 500 carrying the error's text |
| Api.OutcomeReply | controllers/api/static_campaign.go:77-82 | 200 with a success envelope iff the data layer reported no error, else 500 with a failure envelope; the delete and complete handlers use it with their own texts |
| Api.SummaryReply | controllers/api/static_campaign.go:109-119 | 404 exactly for not-found, 500 with the error's text for any other error, 200 with the summary otherwise |
| Api.Server.StaticCampaigns | controllers/api/static_campaign.go:17-46 | GET answers 200 with exactly the user's campaigns and their details, or an empty list when the query fails; POST with an undecodable body answers 400 and changes nothing; otherwise 201 exactly when the data layer reports no error, else 400 with that error's text; a refused validation, page lookup or insert leaves the store unchanged, while past the insert the posted campaign, stamped and on the page found by name, is appended under the next key and stays even on a 400, the keys advance, and the "Campaign Created" event is appended unless its insert fails; results, mail logs and pages never change; a 201 answers with that same campaign, which is InProgress and owned by the user, and exactly it is handed to the worker; no other request launches anything |
| Api.Server.StaticCampaignsSummary | controllers/api/static_campaign.go:49-60 | GET answers 200 exactly when the scan and every first count of the user's campaigns succeed, with `Total` and one summary per campaign of the user, each with its statistics; otherwise 500 with the text of the scan's error or of the first failing count's; other methods write nothing |
| Api.Server.StaticCampaign | controllers/api/static_campaign.go:64-84 | any failure of the owner-scoped fetch with details answers 404 and changes nothing; otherwise GET answers 200 with the campaign and its details, DELETE runs the cascade, gives results, events, mail logs and campaigns as the statements that ran leave them and answers 200 or 500 from the cascade's error, and other methods write nothing; pages and the next keys never change; only such a DELETE can change the store, and after its 200 no row, result or event of the campaign remains |
| Api.Server.StaticCampaignResults | controllers/api/static_campaign.go:88-101 | answers 404 exactly when the fetch, the results or the events statement fails or the user does not own the campaign; otherwise GET answers 200 with the campaign's id, name, status, the user's results of it and its events, and any other method writes nothing |
| Api.Server.StaticCampaignSummary | controllers/api/static_campaign.go:104-121 | GET answers 500 with the failing statement's error when the scan fails or, for an owned campaign, when the first count fails; 404 when the scan ran and the user owns no such campaign; otherwise 200 with that campaign's summary and its statistics, which are consistent; other methods write nothing |
| Api.Server.StaticCampaignComplete | controllers/api/static_campaign.go:125-137 | GET answers exactly as the completion's error dictates: 200 "Campaign completed successfully!" when there is none, 500 "Error completing campaign" otherwise, a campaign the caller does not own included; a 200 means the owned campaign was completed at `now` and no other row changed; a 500 changes nothing; results, events, mail logs, pages and keys are never touched; other methods write nothing and change nothing |

## Left out

- The browser code in `static/js/src/app/static_campaigns.js` is not part of this model. It is UI only: tables, modals and date formatting.
- Launching a campaign is asynchronous work in a worker that is not part of this model. It is recorded only as the list `Server.launches`.
- gorm query construction, `db.Save` upsert semantics and association auto-saving are replaced by explicit table operations. The campaign id, results and events a client puts in a POST body are ignored: the row is inserted under a fresh key, and the second save rewrites the same row.
- gorm derives a table name and foreign keys from the `StaticCampaign` type, while several queries name the table `campaigns`. The model treats all campaign queries as addressing one table, with `campaign_id` as the foreign key of results, events and mail logs.
- `GetPageByName` and `GetCampaign` are defined in files that are not part of this model. They are modelled as owner-scoped lookups on the page and campaign tables, and `GetCampaign` loads no details.
- JSON encoding and decoding, `mux.Vars` and `strconv.ParseInt` are left out. The decoded body is an `Option`, and the path id is an input; an unparsable id reaches the model as 0.
- Writing to the `ResponseWriter`, and all logging, are left out.
- The clock is a parameter. `PostStaticCampaign` reads the clock twice in the source, for the created date and for the event time; the model uses one `now` for both.
- Models.Store.UpdateStatus: takes one of the three lifecycle statuses, whereas the source accepts any string.
- Result statuses other than submitted data and clicked link are kept as free text; the values of the two status constants live in a file that is not part of this model.
- Models.Store.GetDetails: on a failing statement the field it was loading keeps its previous value. gorm may leave it partly filled.
