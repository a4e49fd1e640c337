/** Rows, projections and error values of the static-campaign data layer. */
module Types {

  /** An instant; 0 stands for Go's zero `time.Time`. */
  type Time = int

  const ZeroTime: Time := 0

  datatype Option<T> = None | Some(value: T)

  /** A Go `(value, error)` return pair. */
  datatype Fallible<T> = Fallible(val: T, err: Option<Error>)

  /** The lifecycle of a campaign: Queued, then InProgress, then Complete. */
  datatype CampaignStatus = Queued | InProgress | Complete

  /** The status column of a result row; only two values matter to the statistics. */
  datatype ResultStatus = DataSubmitted | ClickedLink | OtherStatus(text: string)

  datatype Page = Page(id: int, userId: int, name: string)

  /** Go's zero `Page{}`. */
  const NoPage := Page(0, 0, "")

  /** The placeholder page shown when a campaign's page was deleted. */
  const DeletedPage := Page(0, 0, "[Deleted]")

  datatype Result = Result(id: int, campaignId: int, userId: int, email: string, status: ResultStatus)

  datatype Event = Event(id: int, campaignId: int, email: string, time: Time, message: string)

  datatype MailLog = MailLog(id: int, campaignId: int, userId: int, email: string)

  /** A static campaign: its columns, plus the page, results and events that
      are loaded beside it and are not stored in the campaign row. */
  datatype StaticCampaign = StaticCampaign(
    id: int,
    userId: int,
    name: string,
    createdDate: Time,
    launchDate: Time,
    completedDate: Time,
    pageId: int,
    page: Page,
    status: CampaignStatus,
    results: seq<Result>,
    events: seq<Event>,
    url: string)

  /** Go's zero `StaticCampaign{}`. Go's zero status is the empty string; here and in the other
      zero values the status is `Queued`, and these values are only returned beside an error,
      which every handler answers without showing them. */
  const ZeroCampaign := StaticCampaign(0, 0, "", ZeroTime, ZeroTime, ZeroTime, 0, NoPage, Queued, [], [], "")

  /** What the campaign table stores of a campaign: the columns only. */
  function AsRow(c: StaticCampaign): (r: StaticCampaign)
    ensures IsRow(r)
  {
    c.(page := NoPage, results := [], events := [])
  }

  predicate IsRow(c: StaticCampaign) {
    c.page == NoPage && c.results == [] && c.events == []
  }

  datatype Stats = Stats(total: int, clickedLink: int, submittedData: int, error: int)

  const ZeroStats := Stats(0, 0, 0, 0)

  datatype Summary = Summary(
    id: int,
    createdDate: Time,
    launchDate: Time,
    completedDate: Time,
    status: CampaignStatus,
    name: string,
    stats: Stats)

  const ZeroSummary := Summary(0, ZeroTime, ZeroTime, ZeroTime, Queued, "", ZeroStats)

  datatype Summaries = Summaries(total: int, campaigns: seq<Summary>)

  /** The reduced view of a campaign: identity, status, results and events. */
  datatype CampaignResults = CampaignResults(id: int, name: string, status: CampaignStatus,
                                             results: seq<Result>, events: seq<Event>)

  const ZeroCampaignResults := CampaignResults(0, "", Queued, [], [])

  /** One statement sent to the store; its arguments are those of its WHERE clause. */
  datatype Stmt =
    | SelectOwnedCampaigns(uid: int)
    | SelectResults(cid: int)
    | SelectEvents(cid: int)
    | SelectPage(pageId: int)
    | CountResults(cid: int)
    | CountSubmitted(cid: int)
    | CountClicked(cid: int)
    | ScanSummaries(uid: int)
    | ScanSummary(id: int, uid: int)
    | SelectCampaign(id: int, uid: int)
    | SelectOwnedResults(cid: int, uid: int)
    | SelectQueued(t: Time)
    | SelectPageByName(name: string, uid: int)
    | InsertCampaign
    | InsertEvent(cid: int)
    | SaveCampaign(id: int)
    | UpdateCampaignStatus(id: int)
    | DeleteResults(cid: int)
    | DeleteEvents(cid: int)
    | DeleteMailLogs(cid: int)
    | DeleteCampaign(id: int)

  datatype Error =
    | CampaignNameNotSpecified
    | PageNotSpecified
    | InvalidSendByDate
    | PageNotFound
    | RecordNotFound
    | StoreFailure(at: Stmt)
}
