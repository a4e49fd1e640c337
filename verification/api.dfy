/** The HTTP handlers for static campaigns: each calls the data layer once (twice for a
    delete) and chooses a status code and a body from what it returned. */
module Api {
  import opened Types
  import opened Models

  datatype HttpMethod = Get | Post | Delete | OtherMethod(name: string)

  const StatusOK := 200
  const StatusCreated := 201
  const StatusBadRequest := 400
  const StatusNotFound := 404
  const StatusInternalServerError := 500

  /** The message of a response envelope: a fixed text, or the text of a data-layer error. */
  datatype Text = Literal(s: string) | ErrorText(e: Error)

  datatype Body =
    | CampaignList(campaigns: seq<StaticCampaign>)
    | CampaignBody(campaign: StaticCampaign)
    | SummariesBody(summaries: Summaries)
    | SummaryBody(summary: Summary)
    | ResultsBody(view: CampaignResults)
    | Message(success: bool, text: Text)

  /** What a handler writes; `NoReply` when no case of its switch matches the method. */
  datatype Reply = NoReply | Reply(code: int, body: Body)

  const NotFoundReply := Reply(StatusNotFound, Message(false, Literal("Campaign not found")))

  predicate IsSuccessCode(code: int) {
    200 <= code < 300
  }

  /** A written reply carries a success code exactly when its body is not a failure envelope. */
  predicate Consistent(r: Reply) {
    r.Reply? ==> (IsSuccessCode(r.code) <==> !(r.body.Message? && !r.body.success))
  }

  // ---------------------------------------------------------------------------
  // Reply selection
  // ---------------------------------------------------------------------------

  /** GET /campaigns: the list comes back with 200 even when the data layer reported an error. */
  function ListReply(cs: seq<StaticCampaign>, err: Option<Error>): (r: Reply)
    ensures Consistent(r)
    ensures r.Reply? && r.code == StatusOK && r.body == CampaignList(cs)
  {
    Reply(StatusOK, CampaignList(cs))
  }

  /** POST /campaigns: 400 for a body that does not decode or a campaign that is refused,
      201 with the created campaign otherwise. */
  function CreateReply(decoded: bool, err: Option<Error>, c: StaticCampaign): (r: Reply)
    ensures Consistent(r)
    ensures r.Reply? && (r.code == StatusCreated <==> decoded && err.None?)
    ensures r.code != StatusCreated ==> r.code == StatusBadRequest
    ensures !decoded ==> r.body == Message(false, Literal("Invalid JSON structure"))
    ensures decoded && err.Some? ==> r.body == Message(false, ErrorText(err.value))
    ensures r.code == StatusCreated ==> r.body == CampaignBody(c)
  {
    if !decoded then Reply(StatusBadRequest, Message(false, Literal("Invalid JSON structure")))
    else if err.Some? then Reply(StatusBadRequest, Message(false, ErrorText(err.value)))
    else Reply(StatusCreated, CampaignBody(c))
  }

  /** GET /campaigns/summary: 500 carrying the error, or 200 with the summaries. */
  function SummariesReply(o: Summaries, err: Option<Error>): (r: Reply)
    ensures Consistent(r)
    ensures r.Reply? && (r.code == StatusOK <==> err.None?)
    ensures err.Some? ==> r == Reply(StatusInternalServerError, Message(false, ErrorText(err.value)))
    ensures err.None? ==> r.body == SummariesBody(o)
  {
    match err
    case Some(e) => Reply(StatusInternalServerError, Message(false, ErrorText(e)))
    case None => Reply(StatusOK, SummariesBody(o))
  }

  /** DELETE /campaigns/{id} and GET /campaigns/{id}/complete: 500 with the failure text when the
      data layer reported an error, 200 with the success text otherwise. */
  function OutcomeReply(err: Option<Error>, failure: string, success: string): (r: Reply)
    ensures Consistent(r)
    ensures r.Reply? && (r.code == StatusOK <==> err.None?)
    ensures err.Some? ==> r == Reply(StatusInternalServerError, Message(false, Literal(failure)))
    ensures err.None? ==> r == Reply(StatusOK, Message(true, Literal(success)))
  {
    if err.Some? then Reply(StatusInternalServerError, Message(false, Literal(failure)))
    else Reply(StatusOK, Message(true, Literal(success)))
  }

  /** GET /campaigns/{id}/summary: 404 when the record is not found, 500 for any other error. */
  function SummaryReply(s: Summary, err: Option<Error>): (r: Reply)
    ensures Consistent(r)
    ensures r.Reply? && (r.code == StatusOK <==> err.None?)
    ensures r.code == StatusNotFound <==> err == Some(RecordNotFound)
    ensures r.code == StatusInternalServerError <==> err.Some? && err != Some(RecordNotFound)
    ensures r.code == StatusInternalServerError ==> r.body == Message(false, ErrorText(err.value))
    ensures err.None? ==> r.body == SummaryBody(s)
  {
    match err
    case Some(RecordNotFound) => NotFoundReply
    case Some(e) => Reply(StatusInternalServerError, Message(false, ErrorText(e)))
    case None => Reply(StatusOK, SummaryBody(s))
  }

  const DeleteFailed := "Error deleting campaign"
  const Deleted := "Campaign deleted successfully!"
  const CompleteFailed := "Error completing campaign"
  const Completed := "Campaign completed successfully!"

  // ---------------------------------------------------------------------------
  // Handlers
  // ---------------------------------------------------------------------------

  /** The API server: the store it calls and the campaigns it handed to the worker to launch. */
  class Server {
    const store: Store
    var launches: seq<StaticCampaign>

    constructor (store: Store)
      ensures this.store == store && launches == []
    {
      this.store := store;
      launches := [];
    }

    /** /campaigns: GET lists the caller's campaigns; POST creates one from the decoded body
        (`None` when the body is not valid JSON) and asks for its launch when it is in progress. */
    method StaticCampaigns(m: HttpMethod, uid: int, body: Option<StaticCampaign>, now: Time, faults: set<Stmt>)
      returns (reply: Reply)
      requires store.Valid()
      modifies this, store
      ensures store.Valid()
      ensures Consistent(reply)
      ensures m == Get ==>
                reply.Reply? && reply.code == StatusOK && reply.body.CampaignList? &&
                forall c :: c in reply.body.campaigns ==> c.userId == uid
      ensures m == Get && SelectOwnedCampaigns(uid) in faults ==> reply.body.campaigns == []
      ensures m == Get && SelectOwnedCampaigns(uid) !in faults ==>
                |reply.body.campaigns| == |OwnedBy(store.campaigns, uid)| &&
                forall i :: 0 <= i < |reply.body.campaigns| ==>
                  reply.body.campaigns[i] == store.GetDetails(OwnedBy(store.campaigns, uid)[i], faults).val
      ensures m != Post ==> unchanged(store) && launches == old(launches)
      ensures m != Get && m != Post ==> reply == NoReply
      ensures m == Post && body.None? ==>
                reply == Reply(StatusBadRequest, Message(false, Literal("Invalid JSON structure"))) &&
                unchanged(store) && launches == old(launches)
      ensures m == Post && body.Some? ==> reply.Reply? && (reply.code == StatusCreated || reply.code == StatusBadRequest)
      // A post is created exactly when the data layer reports no error, and refused with its text otherwise.
      ensures m == Post && body.Some? ==>
                (reply.code == StatusCreated <==> old(store.PostError(body.value, uid, faults)).None?)
      ensures m == Post && body.Some? && old(store.PostError(body.value, uid, faults)).Some? ==>
                reply == Reply(StatusBadRequest, Message(false, ErrorText(old(store.PostError(body.value, uid, faults)).value)))
      // A refused check, page lookup or insert leaves the store as it was; past the insert the row stays.
      ensures m == Post && body.Some? && !old(store.PostInserts(body.value, uid, faults)) ==> unchanged(store)
      ensures m == Post && body.Some? && old(store.PostInserts(body.value, uid, faults)) ==>
                |store.campaigns| == |old(store.campaigns)| + 1 &&
                store.campaigns[..|old(store.campaigns)|] == old(store.campaigns) &&
                store.events == old(store.events) +
                  (if InsertEvent(old(store.nextCampaignId)) in faults then []
                   else [Event(old(store.nextEventId), old(store.nextCampaignId), "", now, "Campaign Created")])
      ensures m == Post ==>
                store.results == old(store.results) && store.mailLogs == old(store.mailLogs) &&
                store.pages == old(store.pages)
      // What is stored, answered and launched is the posted campaign as the data layer filled it in.
      ensures m == Post && body.Some? && old(store.PostInserts(body.value, uid, faults)) ==>
                store.campaigns == old(store.campaigns) + [AsRow(old(store.Posted(body.value, uid, now, faults)))] &&
                store.nextCampaignId == old(store.nextCampaignId) + 1 &&
                store.nextEventId == old(store.nextEventId) +
                  (if InsertEvent(old(store.nextCampaignId)) in faults then 0 else 1)
      ensures m == Post && body.Some? && reply.Reply? && reply.code == StatusCreated ==>
                reply.body == CampaignBody(old(store.Posted(body.value, uid, now, faults))) &&
                launches == old(launches) + [old(store.Posted(body.value, uid, now, faults))]
      ensures reply.Reply? && reply.code == StatusCreated ==>
                reply.body.CampaignBody? && reply.body.campaign.status == InProgress &&
                reply.body.campaign.userId == uid &&
                Lookup(store.campaigns, reply.body.campaign.id, uid) == Some(AsRow(reply.body.campaign)) &&
                launches == old(launches) + [reply.body.campaign]
      ensures !(reply.Reply? && reply.code == StatusCreated) ==> launches == old(launches)
    {
      match m
      case Get =>
        var cs, err := store.GetStaticCampaigns(uid, faults);
        reply := ListReply(cs, err);
      case Post =>
        if body.None? {
          reply := CreateReply(false, None, ZeroCampaign);
          return;
        }
        var c, err := store.PostStaticCampaign(body.value, uid, now, faults);
        reply := CreateReply(true, err, c);
        if err.None? && c.status == InProgress {
          launches := launches + [c];
        }
      case _ =>
        reply := NoReply;
    }

    /** /campaigns/summary: GET summarises the caller's campaigns. */
    method StaticCampaignsSummary(m: HttpMethod, uid: int, faults: set<Stmt>) returns (reply: Reply)
      ensures Consistent(reply)
      ensures m != Get ==> reply == NoReply
      ensures m == Get ==> reply.Reply? && (reply.code == StatusOK || reply.code == StatusInternalServerError)
      ensures m == Get ==>
                (reply.code == StatusOK <==>
                   ScanSummaries(uid) !in faults &&
                   forall i :: 0 <= i < |OwnedBy(store.campaigns, uid)| ==>
                     CountResults(OwnedBy(store.campaigns, uid)[i].id) !in faults)
      ensures m == Get && reply.code == StatusInternalServerError ==>
                reply.body.Message? && reply.body.text.ErrorText? && reply.body.text.e.StoreFailure?
      ensures m == Get && store.SummariesError(uid, faults).Some? ==>
                reply == Reply(StatusInternalServerError,
                               Message(false, ErrorText(store.SummariesError(uid, faults).value)))
      ensures reply.Reply? && reply.code == StatusOK ==>
                reply.body.SummariesBody? &&
                reply.body.summaries.total == |reply.body.summaries.campaigns| == |OwnedBy(store.campaigns, uid)| &&
                forall i :: 0 <= i < |reply.body.summaries.campaigns| ==>
                  reply.body.summaries.campaigns[i] ==
                    SummaryOf(OwnedBy(store.campaigns, uid)[i],
                              store.GetStaticCampaignStats(OwnedBy(store.campaigns, uid)[i].id, faults).val)
    {
      if m == Get {
        var o, err := store.GetStaticCampaignSummaries(uid, faults);
        reply := SummariesReply(o, err);
      } else {
        reply := NoReply;
      }
    }

    /** /campaigns/{id}: the owner-scoped fetch comes first and answers 404 when it fails, so
        GET shows and DELETE removes only a campaign the caller owns. */
    method StaticCampaign(m: HttpMethod, uid: int, id: int, faults: set<Stmt>) returns (reply: Reply)
      requires store.Valid()
      modifies store
      ensures store.Valid()
      ensures Consistent(reply)
      // Any failure of the fetch, details included, answers 404 before the method is looked at.
      ensures old(store.FetchFails(id, uid, faults)) ==> reply == NotFoundReply && unchanged(store)
      ensures !old(store.FetchFails(id, uid, faults)) && m == Get ==>
                reply == Reply(StatusOK, CampaignBody(old(store.GetDetails(Lookup(store.campaigns, id, uid).value, faults).val)))
      ensures !old(store.FetchFails(id, uid, faults)) && m == Delete ==>
                reply == OutcomeReply(DeleteError(id, faults), DeleteFailed, Deleted) &&
                store.results == (if StepsDone(DeleteSteps(id), faults) >= 1 then PurgeResults(old(store.results), id)
                                  else old(store.results)) &&
                store.events == (if StepsDone(DeleteSteps(id), faults) >= 2 then PurgeEvents(old(store.events), id)
                                 else old(store.events)) &&
                store.mailLogs == (if StepsDone(DeleteSteps(id), faults) >= 3 then PurgeMailLogs(old(store.mailLogs), id)
                                   else old(store.mailLogs)) &&
                store.campaigns == (if StepsDone(DeleteSteps(id), faults) == 4 then PurgeCampaigns(old(store.campaigns), id)
                                    else old(store.campaigns))
      ensures !old(store.FetchFails(id, uid, faults)) && m != Get && m != Delete ==> reply == NoReply
      ensures store.pages == old(store.pages)
      ensures store.nextCampaignId == old(store.nextCampaignId) && store.nextEventId == old(store.nextEventId)
      ensures m != Delete ==> unchanged(store)
      ensures !unchanged(store) ==> m == Delete && !old(store.FetchFails(id, uid, faults))
      ensures m == Delete && reply.Reply? && reply.code == StatusOK ==>
                Lookup(store.campaigns, id, uid).None? && ResultsOf(store.results, id) == [] &&
                EventsOf(store.events, id) == []
    {
      var c, err := store.GetStaticCampaign(id, uid, faults);
      if err.Some? {
        return NotFoundReply;
      }
      match m
      case Get =>
        reply := Reply(StatusOK, CampaignBody(c));
      case Delete =>
        var delErr := store.DeleteStaticCampaign(id, faults);
        reply := OutcomeReply(delErr, DeleteFailed, Deleted);
        if delErr.None? {
          PurgeLeavesNothing(old(store.results), old(store.events), old(store.mailLogs), old(store.campaigns), id, uid);
        }
      case _ =>
        reply := NoReply;
    }

    /** /campaigns/{id}/results: the reduced view of a campaign the caller owns, or 404. */
    method StaticCampaignResults(m: HttpMethod, uid: int, id: int, faults: set<Stmt>) returns (reply: Reply)
      ensures Consistent(reply)
      // Any failing statement of the fetch answers 404; otherwise GET answers 200 with the whole
      // view and other methods write nothing.
      ensures (|| SelectCampaign(id, uid) in faults || Lookup(store.campaigns, id, uid).None?
               || SelectOwnedResults(id, uid) in faults || SelectEvents(id) in faults) ==>
                reply == NotFoundReply
      ensures m == Get && SelectCampaign(id, uid) !in faults && Lookup(store.campaigns, id, uid).Some? &&
              SelectOwnedResults(id, uid) !in faults && SelectEvents(id) !in faults ==>
                reply == Reply(StatusOK, ResultsBody(CampaignResults(id, Lookup(store.campaigns, id, uid).value.name,
                                                                     Lookup(store.campaigns, id, uid).value.status,
                                                                     OwnedResultsOf(store.results, id, uid),
                                                                     EventsOf(store.events, id))))
      ensures m != Get && SelectCampaign(id, uid) !in faults && Lookup(store.campaigns, id, uid).Some? &&
              SelectOwnedResults(id, uid) !in faults && SelectEvents(id) !in faults ==>
                reply == NoReply
    {
      var cr, err := store.GetStaticCampaignResults(id, uid, faults);
      if err.Some? {
        return NotFoundReply;
      }
      if m == Get {
        return Reply(StatusOK, ResultsBody(cr));
      }
      reply := NoReply;
    }

    /** /campaigns/{id}/summary: GET answers the summary of a campaign the caller owns. */
    method StaticCampaignSummary(m: HttpMethod, uid: int, id: int, faults: set<Stmt>) returns (reply: Reply)
      ensures Consistent(reply)
      ensures m != Get ==> reply == NoReply
      ensures m == Get && Lookup(store.campaigns, id, uid).None? && ScanSummary(id, uid) !in faults ==>
                reply == NotFoundReply
      ensures reply.Reply? && reply.code == StatusOK ==>
                reply.body.SummaryBody? && reply.body.summary.id == id &&
                Lookup(store.campaigns, id, uid).Some? &&
                StatsConsistent(reply.body.summary.stats)
      // A failing scan or first count answers 500 with its error; an owned campaign otherwise 200.
      ensures m == Get && ScanSummary(id, uid) in faults ==>
                reply == Reply(StatusInternalServerError, Message(false, ErrorText(StoreFailure(ScanSummary(id, uid)))))
      ensures m == Get && ScanSummary(id, uid) !in faults && Lookup(store.campaigns, id, uid).Some? ==>
                reply == if CountResults(id) in faults
                         then Reply(StatusInternalServerError, Message(false, ErrorText(StoreFailure(CountResults(id)))))
                         else Reply(StatusOK, SummaryBody(SummaryOf(Lookup(store.campaigns, id, uid).value,
                                                                    store.GetStaticCampaignStats(id, faults).val)))
    {
      if m == Get {
        var s, err := store.GetStaticCampaignSummary(id, uid, faults);
        reply := SummaryReply(s, err);
      } else {
        reply := NoReply;
      }
    }

    /** /campaigns/{id}/complete: GET completes a campaign the caller owns; any failure,
        a missing campaign included, answers 500. */
    method StaticCampaignComplete(m: HttpMethod, uid: int, id: int, now: Time, faults: set<Stmt>)
      returns (reply: Reply)
      requires store.Valid()
      modifies store
      ensures store.Valid()
      ensures Consistent(reply)
      ensures m != Get ==> reply == NoReply && unchanged(store)
      ensures m == Get && Lookup(old(store.campaigns), id, uid).None? ==>
                reply == Reply(StatusInternalServerError, Message(false, Literal(CompleteFailed)))
      ensures m == Get && Lookup(old(store.campaigns), id, uid).None? ==> unchanged(store)
      ensures m == Get ==>
                reply == Reply(StatusOK, Message(true, Literal(Completed))) ||
                reply == Reply(StatusInternalServerError, Message(false, Literal(CompleteFailed)))
      ensures m == Get && reply.Reply? && reply.code == StatusOK ==>
                store.campaigns == CompleteWhere(old(store.campaigns), id, uid, now)
      ensures store.results == old(store.results) && store.events == old(store.events)
      ensures store.mailLogs == old(store.mailLogs) && store.pages == old(store.pages)
      ensures store.nextCampaignId == old(store.nextCampaignId) && store.nextEventId == old(store.nextEventId)
      // GET answers 200 exactly when the data layer reports no error, and only then can a row change.
      ensures m == Get ==> reply == OutcomeReply(CompleteError(old(store.campaigns), id, uid, faults), CompleteFailed, Completed)
      ensures m == Get && reply.code != StatusOK ==> unchanged(store)
    {
      if m == Get {
        var err := store.CompleteStaticCampaign(id, uid, now, faults);
        reply := OutcomeReply(err, CompleteFailed, Completed);
      } else {
        reply := NoReply;
      }
    }
  }
}
